/**
  The entry editor of the journaling page: its word and character counters,
  the crisis-language check that runs whenever the content changes, the
  "last saved" label and the enabling of its two buttons.
*/
module JournalEditor {
  import opened Js
  import Utf16Bytes

  /** The length of the run of non-space characters at the start of `s`. */
  function RunLength(s: string): (n: nat)
    ensures n <= |s|
    ensures forall i | 0 <= i < n :: !IsSpace(s[i])
    ensures n < |s| ==> IsSpace(s[n])
  {
    if s == [] || IsSpace(s[0]) then 0 else 1 + RunLength(s[1..])
  }

  /** `content.trim().split(/\s+/).filter(w => w.length > 0)`: trimming,
      splitting at every run of white space and dropping empty pieces leaves
      exactly the maximal runs of non-space characters, in order. */
  function Words(s: string): (words: seq<string>)
    ensures forall i | 0 <= i < |words| :: words[i] != "" && !HasSpace(words[i])
    ensures |words| == 0 <==> AllSpace(s)
    decreases |s|
  {
    if s == [] then []
    else if IsSpace(s[0]) then Words(s[1..])
    else
      var n := RunLength(s);
      [s[..n]] + Words(s[n..])
  }

  predicate HasSpace(w: string)
  {
    exists i | 0 <= i < |w| :: IsSpace(w[i])
  }

  /** The word count shown under the editor (lines 19-21, 33-35); empty
      content counts no words. */
  function WordCount(content: string): (n: nat)
    ensures n == 0 <==> AllSpace(content)
  {
    if content == "" then 0 else |Words(content)|
  }

  /** The character count (line 22): UTF-16 code units, as `length` counts them. */
  function CharacterCount(content: string): (n: nat)
    ensures n == 0 <==> content == ""
    ensures |content| <= n
  {
    if content == "" then 0 else Utf16Bytes.JsLength(content)
  }

  /** Words followed by white space: the first word is exactly the first run. */
  lemma RunOfWord(w: string, rest: string)
    requires w != "" && !HasSpace(w)
    requires rest == [] || IsSpace(rest[0])
    ensures RunLength(w + rest) == |w|
    decreases |w|
  {
    if |w| > 1 {
      assert (w + rest)[1..] == w[1..] + rest;
      assert !HasSpace(w[1..]) by {
        forall i | 0 <= i < |w[1..]| ensures !IsSpace(w[1..][i]) {
          assert w[1..][i] == w[i + 1];
        }
      }
      RunOfWord(w[1..], rest);
    } else {
      assert !IsSpace(w[0]);
      assert (w + rest)[1..] == rest;
    }
  }

  /** Splitting words written out with single spaces gives the same words back. */
  lemma {:induction false} WordsOfJoin(words: seq<string>)
    requires forall i | 0 <= i < |words| :: words[i] != "" && !HasSpace(words[i])
    ensures Words(Join(words, " ")) == words
  {
    if |words| == 1 {
      RunOfWord(words[0], []);
      assert words[0] + [] == words[0];
      assert words[0][|words[0]|..] == [];
      assert Words(Join(words, " ")) == [words[0]] + Words([]);
    } else if |words| > 1 {
      var w := words[0];
      var rest := Join(words[1..], " ");
      var s := Join(words, " ");
      assert s == w + (" " + rest);
      RunOfWord(w, " " + rest);
      assert s[..|w|] == w;
      assert s[|w|..] == " " + rest;
      assert IsSpace((" " + rest)[0]);
      assert (" " + rest)[1..] == rest;
      WordsOfJoin(words[1..]);
      assert Words(s) == [w] + Words(s[|w|..]);
      assert words == [w] + words[1..];
    }
  }

  /** The six phrases the crisis check looks for (line 25). */
  const CrisisKeywords := ["hurt myself", "end it all", "no point", "give up", "suicide", "kill myself"]

  /** `crisisKeywords.some(k => content.toLowerCase().includes(k))` */
  predicate HasCrisisLanguage(content: string)
  {
    exists i | 0 <= i < |CrisisKeywords| :: Includes(Lower(content), CrisisKeywords[i])
  }

  /** Whether a content change calls `onTriggerCrisis` (lines 19, 30): only
      for a crisis phrase in content longer than 50 code units. */
  predicate TriggersCrisis(content: string)
    ensures TriggersCrisis(content) ==> HasCrisisLanguage(content) && |content| > 25
  {
    content != "" && HasCrisisLanguage(content) && Utf16Bytes.JsLength(content) > 50
  }

  /** Upper- and lower-case spellings of the content trigger alike. */
  lemma CrisisCheckIgnoresCase(content: string)
    ensures TriggersCrisis(Upper(content)) == TriggersCrisis(content)
    ensures TriggersCrisis(Lower(content)) == TriggersCrisis(content)
  {
    LowerForgetsCase(content);
    var u := Upper(content);
    var l := Lower(content);
    forall i | 0 <= i < |content| ensures (content[i] as int < 0x1_0000) == (u[i] as int < 0x1_0000) {
      assert u[i] == UpperChar(content[i]);
    }
    forall i | 0 <= i < |content| ensures (content[i] as int < 0x1_0000) == (l[i] as int < 0x1_0000) {
      assert l[i] == LowerChar(content[i]);
    }
    Utf16Bytes.JsLengthPointwise(content, u);
    Utf16Bytes.JsLengthPointwise(content, l);
  }

  /** Short content never triggers, whatever it says. */
  lemma ShortContentNeverTriggers(content: string)
    requires |content| <= 25
    ensures !TriggersCrisis(content)
  {
  }

  /** The text of the "last saved" label, or the locale clock time of the
      save, which is not modelled. */
  datatype SavedLabel = Shown(text: string) | ClockTime

  /** `formatLastSaved` (lines 55-70), with the current time and the save
      time as milliseconds; `None` stands for no save yet. Whole minutes are
      `Math.floor(diff / 60000)`. */
  function FormatLastSaved(timestamp: Option<int>, now: int): (r: SavedLabel)
    ensures timestamp.None? ==> r == Shown("")
    ensures timestamp.Some? && now - timestamp.value < 60000 ==> r == Shown("Saved just now")
    ensures timestamp.Some? && 60000 <= now - timestamp.value < 120000 ==> r == Shown("Saved 1 minute ago")
    ensures timestamp.Some? && 120000 <= now - timestamp.value < 3600000 ==>
      exists m: nat | 2 <= m < 60 && m * 60000 <= now - timestamp.value < (m + 1) * 60000 ::
        r == Shown("Saved " + NatToString(m) + " minutes ago")
    ensures timestamp.Some? && now - timestamp.value >= 3600000 ==> r == ClockTime
  {
    if timestamp.None? then Shown("")
    else
      var minutes := (now - timestamp.value) / 60000;
      if minutes < 1 then Shown("Saved just now")
      else if minutes == 1 then Shown("Saved 1 minute ago")
      else if minutes < 60 then Shown("Saved " + NatToString(minutes) + " minutes ago")
      else ClockTime
  }

  /** The Save button is disabled for blank content or while saving (line 146). */
  predicate SaveDisabled(content: string, isSaving: bool)
    ensures !SaveDisabled(content, isSaving) ==> content != "" && !isSaving
    ensures isSaving ==> SaveDisabled(content, isSaving)
  {
    Trim(content) == "" || isSaving
  }

  /** The Clear button is disabled for empty content or while saving (line 133). */
  predicate ClearDisabled(content: string, isSaving: bool)
    ensures isSaving ==> ClearDisabled(content, isSaving)
    ensures content == "" ==> ClearDisabled(content, isSaving)
  {
    content == "" || isSaving
  }

  /** Save is enabled exactly when some character is not white space and no
      save runs; whenever Save is enabled, Clear is too, and content of
      white space only can be cleared but not saved. */
  lemma ButtonRules(content: string, isSaving: bool)
    ensures !SaveDisabled(content, isSaving) <==> !AllSpace(content) && !isSaving
    ensures !SaveDisabled(content, isSaving) ==> !ClearDisabled(content, isSaving)
    ensures content != "" && AllSpace(content) && !isSaving ==>
      SaveDisabled(content, isSaving) && !ClearDisabled(content, isSaving)
  {
    TrimEmptyIffAllSpace(content);
  }
}
