/**
  The "My Data" export of the account settings: the export options, the
  export object the JSON download holds, and the CSV download, whose free
  text fields are quoted with every double quote doubled (section 2 of
  RFC 4180). The rows come straight from the store with `select('*')`, so
  a journal row holds `encrypted_content` and no `content`.
*/
module MyDataTab {
  import opened Js
  import JournalService

  // ---------------------------------------------------------------------
  // Options
  // ---------------------------------------------------------------------

  /** The options the tab starts with (lines 14-19). */
  const InitialOptions: map<string, bool> :=
    map["journalEntries" := true, "moodData" := true, "userProfile" := true, "insights" := false]

  /** `exportOptions[key]` as a condition: a missing key is undefined, falsy. */
  predicate Has(options: map<string, bool>, key: string)
  {
    key in options && options[key]
  }

  /** The export button's `disabled` (line 314): while exporting, or when no option is set. */
  predicate ExportDisabled(isExporting: bool, options: map<string, bool>)
    ensures isExporting ==> ExportDisabled(isExporting, options)
    ensures !isExporting ==> (ExportDisabled(isExporting, options) <==> forall k | k in options :: !Has(options, k))
  {
    isExporting || !(exists k | k in options :: options[k])
  }

  class Tab {
    var exportOptions: map<string, bool>
    var exportFormat: string
    var isExporting: bool

    constructor ()
      ensures exportOptions == InitialOptions && exportFormat == "json" && !isExporting
    {
      exportOptions := InitialOptions;
      exportFormat := "json";
      isExporting := false;
    }

    /** `handleExportOptionChange` (lines 22-27): only the named option changes. */
    method SetOption(option: string, value: bool)
      modifies this
      ensures exportOptions == old(exportOptions)[option := value]
      ensures Has(exportOptions, option) == value
      ensures forall k | k != option :: Has(exportOptions, k) == Has(old(exportOptions), k)
      ensures exportFormat == old(exportFormat) && isExporting == old(isExporting)
    {
      exportOptions := exportOptions[option := value];
    }
  }

  /** The button starts enabled, and clearing all four checkboxes disables it. */
  lemma ButtonFollowsOptions(options: map<string, bool>)
    requires options.Keys == InitialOptions.Keys
    ensures !ExportDisabled(false, InitialOptions)
    ensures ExportDisabled(false, options[ "journalEntries" := false][ "moodData" := false]
                                          [ "userProfile" := false][ "insights" := false])
  {
    assert InitialOptions["journalEntries"];
    var cleared := options["journalEntries" := false]["moodData" := false]["userProfile" := false]["insights" := false];
    assert forall k | k in cleared :: k in InitialOptions.Keys;
  }

  // ---------------------------------------------------------------------
  // Quoting
  // ---------------------------------------------------------------------

  /** `s.replace(/"/g, '""')` */
  function DoubleQuotes(s: string): (r: string)
    ensures |r| >= |s|
    ensures '"' !in s ==> r == s
  {
    if s == [] then []
    else (if s[0] == '"' then "\"\"" else [s[0]]) + DoubleQuotes(s[1..])
  }

  /** The text an RFC 4180 reader takes from the inside of a quoted field:
      a pair of quotes stands for one quote, a lone quote is malformed. */
  function Unescape(t: string): (r: Option<string>)
  {
    if t == [] then Some([])
    else if t[0] == '"' then
      if |t| >= 2 && t[1] == '"' then
        match Unescape(t[2..])
        case None => None
        case Some(rest) => Some("\"" + rest)
      else None
    else
      match Unescape(t[1..])
      case None => None
      case Some(rest) => Some([t[0]] + rest)
  }

  /** Doubling the quotes gives a field body a reader turns back into the text. */
  lemma {:induction false} UnescapeDoubleQuotes(s: string)
    ensures Unescape(DoubleQuotes(s)) == Some(s)
  {
    if s != [] {
      UnescapeDoubleQuotes(s[1..]);
      var t := DoubleQuotes(s);
      if s[0] == '"' {
        assert t[2..] == DoubleQuotes(s[1..]);
      } else {
        assert t[1..] == DoubleQuotes(s[1..]);
      }
      assert s == [s[0]] + s[1..];
    }
  }

  /** Different texts give different field bodies. */
  lemma DoubleQuotesInjective(s: string, t: string)
    requires DoubleQuotes(s) == DoubleQuotes(t)
    ensures s == t
  {
    UnescapeDoubleQuotes(s);
    UnescapeDoubleQuotes(t);
  }

  // ---------------------------------------------------------------------
  // CSV
  // ---------------------------------------------------------------------

  /** The only way a line can fail: calling `replace` on a value that is
      not a string throws a TypeError, which ends the export. */
  datatype ExportError = TypeError

  /** `"..."` around a text with its quotes doubled. */
  function Quoted(s: string): string
  {
    "\"" + DoubleQuotes(s) + "\""
  }

  /** The fields before the quoted content. */
  function JournalLead(row: Object): string
  {
    Text(Get(row, "id")) + "," + Text(Get(row, "created_at")) + ","
  }

  /** The fields after the quoted content: `mood || ''` and `tags || ''`. */
  function JournalTail(row: Object): string
  {
    "," + Text(Or(Get(row, "mood"), Str(""))) + "," + Text(Or(Get(row, "tags"), Str(""))) + "\n"
  }

  /** One journal line (line 96): `entry.content.replace(...)` needs a string. */
  function JournalLine(row: Object): (line: Result<string, ExportError>)
    ensures line.Success? <==> Get(row, "content").Str?
  {
    match Get(row, "content")
    case Str(s) =>
      Success(JournalLead(row) + Quoted(s) + JournalTail(row))
    case _ => Failure(TypeError)
  }

  /** `notes?.replace(/"/g, '""') || ''`: missing notes give empty text; a
      list has no `replace`. */
  function NotesField(notes: Value): (field: Result<string, ExportError>)
    ensures field.Success? <==> !notes.StrList?
  {
    match notes
    case Str(s) => Success(DoubleQuotes(s))
    case StrList(_) => Failure(TypeError)
    case _ => Success("")
  }

  /** The fields before the quoted notes. */
  function MoodLead(row: Object): string
  {
    Text(Get(row, "id")) + "," + Text(Get(row, "recorded_at")) + "," + Text(Get(row, "mood_value")) + ","
  }

  /** One mood line (line 103). */
  function MoodLine(row: Object): (line: Result<string, ExportError>)
    ensures line.Success? <==> !Get(row, "notes").StrList?
  {
    match NotesField(Get(row, "notes"))
    case Failure(e) => Failure(e)
    case Success(n) => Success(MoodLead(row) + "\"" + n + "\"\n")
  }

  /** The content field of a journal line reads back as the content. */
  lemma ContentFieldReadsBack(row: Object)
    requires Get(row, "content").Str?
    ensures exists before, after, body ::
      JournalLine(row).value == before + ("\"" + body + "\"") + after &&
      Unescape(body) == Some(Get(row, "content").s)
  {
    var s := Get(row, "content").s;
    UnescapeDoubleQuotes(s);
    assert JournalLine(row).value == JournalLead(row) + ("\"" + DoubleQuotes(s) + "\"") + JournalTail(row);
  }

  /** The notes field of a mood line reads back as the notes, or as empty
      text when there are none. */
  lemma NotesFieldReadsBack(row: Object)
    requires !Get(row, "notes").StrList?
    ensures exists before, body ::
      MoodLine(row).value == before + "\"" + body + "\"\n" &&
      Unescape(body) == Some(if Get(row, "notes").Str? then Get(row, "notes").s else "")
  {
    var s := if Get(row, "notes").Str? then Get(row, "notes").s else "";
    UnescapeDoubleQuotes(s);
    assert NotesField(Get(row, "notes")) == Success(DoubleQuotes(s));
    assert MoodLine(row).value == MoodLead(row) + "\"" + DoubleQuotes(s) + "\"\n";
  }

  predicate LinesOk(rows: seq<Object>, line: Object -> Result<string, ExportError>)
  {
    forall i | 0 <= i < |rows| :: line(rows[i]).Success?
  }

  /** The lines of the rows, in order. */
  function LinesText(rows: seq<Object>, line: Object -> Result<string, ExportError>): string
    requires LinesOk(rows, line)
  {
    if rows == [] then ""
    else LinesText(rows[..|rows| - 1], line) + line(rows[|rows| - 1]).value
  }

  const JournalHeading := "Journal Entries:\nID,Date,Content,Mood,Tags\n"
  const MoodHeading := "\n\nMood Data:\nID,Date,Mood,Notes\n"

  /** The CSV text (lines 92-104): both headings with their lines, or the
      TypeError of the first line that throws. */
  function CsvText(journal: seq<Object>, moods: seq<Object>): (csv: Result<string, ExportError>)
    ensures csv.Success? <==> LinesOk(journal, JournalLine) && LinesOk(moods, MoodLine)
  {
    if LinesOk(journal, JournalLine) && LinesOk(moods, MoodLine) then
      Success(JournalHeading + LinesText(journal, JournalLine) + MoodHeading + LinesText(moods, MoodLine))
    else Failure(TypeError)
  }

  /** Appends the lines of `rows` to `csv`, stopping at the first that throws. */
  method AppendLines(csv: string, rows: seq<Object>, line: Object -> Result<string, ExportError>)
    returns (r: Result<string, ExportError>)
    ensures r.Success? <==> LinesOk(rows, line)
    ensures r.Success? ==> r.value == csv + LinesText(rows, line)
  {
    var text := csv;
    var i := 0;
    while i < |rows|
      invariant 0 <= i <= |rows|
      invariant LinesOk(rows[..i], line)
      invariant text == csv + LinesText(rows[..i], line)
    {
      var next := line(rows[i]);
      if next.Failure? {
        return Failure(next.error);
      }
      assert rows[..i + 1][..i] == rows[..i];
      text := text + next.value;
      i := i + 1;
    }
    assert rows[..i] == rows;
    return Success(text);
  }

  /** The `forEach` loops of `handleExportData` (lines 92-104). */
  method BuildCsv(journal: seq<Object>, moods: seq<Object>) returns (r: Result<string, ExportError>)
    ensures r == CsvText(journal, moods)
  {
    var withJournal := AppendLines(JournalHeading, journal, JournalLine);
    if withJournal.Failure? {
      return Failure(TypeError);
    }
    r := AppendLines(withJournal.value + MoodHeading, moods, MoodLine);
    if r.Failure? {
      return Failure(TypeError);
    }
  }

  /** With neither table exported the CSV is the two headings alone. */
  lemma EmptyCsv()
    ensures CsvText([], []) == Success(JournalHeading + MoodHeading)
  {
    assert LinesText([], JournalLine) == "" && LinesText([], MoodLine) == "";
    assert JournalHeading + "" + MoodHeading + "" == JournalHeading + MoodHeading;
  }

  // ---------------------------------------------------------------------
  // The export
  // ---------------------------------------------------------------------

  /** What a store query gave: its rows (`data`, None for null) or an error code. */
  datatype Fetch<T> = Fetched(data: Option<T>) | FetchError(code: string)

  /** The object the JSON download holds (lines 75-81). */
  datatype Export = Export(userId: string, exportDate: string, journalEntries: seq<Object>,
                           moodData: seq<Object>, userProfile: Option<Object>)

  /** The rows a query contributes: `data || []` when its option is set, none otherwise. */
  function Rows(f: Fetch<seq<Object>>, selected: bool): (rows: seq<Object>)
    ensures !selected ==> rows == []
    ensures selected && f.Fetched? ==> rows == GetOr(f.data, [])
  {
    if selected && f.Fetched? then GetOr(f.data, []) else []
  }

  /** Every selected query answered: a journal or mood error is thrown, and
      so is a profile error other than PGRST116 (no profile row). */
  predicate FetchesOk(options: map<string, bool>, entries: Fetch<seq<Object>>,
                      moods: Fetch<seq<Object>>, profile: Fetch<Object>)
  {
    (Has(options, "journalEntries") ==> entries.Fetched?) &&
    (Has(options, "moodData") ==> moods.Fetched?) &&
    (Has(options, "userProfile") ==> profile.Fetched? || profile.code == "PGRST116")
  }

  /** `profile || null`: a missing profile row reads as null. */
  function ProfileOf(profile: Fetch<Object>): Option<Object>
  {
    if profile.Fetched? then profile.data else None
  }

  /** `innerline-data-export-<date><extension>` (lines 88 and 107). */
  function ExportFilename(today: string, extension: string): string
  {
    "innerline-data-export-" + today + extension
  }

  datatype Payload = Json(exported: Export) | Csv(text: string)

  datatype Outcome =
    | NotSignedIn                   // no user: nothing happens
    | Failed                        // the catch branch's alert
    | Download(filename: string, mimeType: string, payload: Payload)

  /** The three queries of `handleExportData` (lines 35-72): an unselected
      table contributes nothing and is not read; a thrown error ends the
      export, so there is data exactly when every selected query answered. */
  method FetchAll(options: map<string, bool>, entries: Fetch<seq<Object>>,
                  moods: Fetch<seq<Object>>, profile: Fetch<Object>)
    returns (data: Option<(seq<Object>, seq<Object>, Option<Object>)>)
    ensures data.Some? <==> FetchesOk(options, entries, moods, profile)
    ensures data.Some? ==> data.value == (Rows(entries, Has(options, "journalEntries")),
                                          Rows(moods, Has(options, "moodData")),
                                          if Has(options, "userProfile") then ProfileOf(profile) else None)
  {
    var journalData: seq<Object> := [];
    if Has(options, "journalEntries") {
      if entries.FetchError? {
        return None;
      }
      journalData := GetOr(entries.data, []);
    }
    var moodData: seq<Object> := [];
    if Has(options, "moodData") {
      if moods.FetchError? {
        return None;
      }
      moodData := GetOr(moods.data, []);
    }
    var profileData: Option<Object> := None;
    if Has(options, "userProfile") {
      if profile.FetchError? && profile.code != "PGRST116" {
        return None;
      }
      profileData := ProfileOf(profile);
    }
    return Some((journalData, moodData, profileData));
  }

  /** `handleExportData` (lines 29-128) on the store's answers; an answer is
      only read when its option is set. `now` is the ISO time of the export
      and `today` its date part. The JSON text itself is not modelled. */
  method ExportData(user: Option<string>, format: string, options: map<string, bool>,
                    entries: Fetch<seq<Object>>, moods: Fetch<seq<Object>>, profile: Fetch<Object>,
                    now: string, today: string)
    returns (outcome: Outcome)
    ensures user.None? <==> outcome == NotSignedIn
    ensures outcome.Download? <==>
      user.Some? && FetchesOk(options, entries, moods, profile) &&
      (format == "json" || CsvText(Rows(entries, Has(options, "journalEntries")), Rows(moods, Has(options, "moodData"))).Success?)
    ensures user.Some? && !FetchesOk(options, entries, moods, profile) ==> outcome == Failed
    ensures outcome.Download? ==> (outcome.payload.Json? <==> format == "json")
    ensures outcome.Download? && outcome.payload.Json? ==>
      var e := outcome.payload.exported;
      e.userId == user.value && e.exportDate == now &&
      e.journalEntries == Rows(entries, Has(options, "journalEntries")) &&
      e.moodData == Rows(moods, Has(options, "moodData")) &&
      e.userProfile == (if Has(options, "userProfile") then ProfileOf(profile) else None) &&
      outcome.filename == ExportFilename(today, ".json") &&
      outcome.mimeType == "application/json"
    ensures outcome.Download? && outcome.payload.Csv? ==>
      outcome.filename == ExportFilename(today, ".csv") && outcome.mimeType == "text/csv" &&
      CsvText(Rows(entries, Has(options, "journalEntries")), Rows(moods, Has(options, "moodData")))
        == Success(outcome.payload.text)
  {
    if user.None? {
      return NotSignedIn;
    }
    var fetched := FetchAll(options, entries, moods, profile);
    if fetched.None? {
      return Failed;
    }
    var (journalData, moodData, profileData) := fetched.value;
    var exported := Export(user.value, now, journalData, moodData, profileData);
    if format == "json" {
      return Download(ExportFilename(today, ".json"), "application/json", Json(exported));
    }
    var csv := BuildCsv(journalData, moodData);
    if csv.Failure? {
      return Failed;
    }
    return Download(ExportFilename(today, ".csv"), "text/csv", Csv(csv.value));
  }

  // ---------------------------------------------------------------------
  // A journal row as stored cannot be exported as CSV
  // ---------------------------------------------------------------------

  /** As written, a CSV export fails for every journal row the journal
      service stores: such a row has `encrypted_content` and no `content`. */
  lemma StoredRowBreaksCsv(userId: string, encrypted: string, entry: Object, createdAt: string,
                           id: string, moods: seq<Object>)
    ensures CsvText([JournalService.NewRow(userId, encrypted, entry, createdAt)["id" := Str(id)]], moods)
      == Failure(TypeError)
  {
    var row := JournalService.NewRow(userId, encrypted, entry, createdAt)["id" := Str(id)];
    assert Get(row, "content") == Undefined;
    assert !JournalLine([row][0]).Success?;
  }

  /** The line a row without string content evidently should give: an empty
      content field in place of the TypeError. */
  function JournalLineFixed(row: Object): (line: string)
    ensures Get(row, "content").Str? ==> Success(line) == JournalLine(row)
  {
    var content := if Get(row, "content").Str? then Get(row, "content").s else "";
    JournalLead(row) + Quoted(content) + JournalTail(row)
  }

  function JournalLineOk(row: Object): Result<string, ExportError>
  {
    Success(JournalLineFixed(row))
  }

  /** The corrected CSV text: journal rows never throw. */
  function CsvTextFixed(journal: seq<Object>, moods: seq<Object>): (csv: Result<string, ExportError>)
    ensures csv.Success? <==> LinesOk(moods, MoodLine)
  {
    if LinesOk(moods, MoodLine) then
      Success(JournalHeading + LinesText(journal, JournalLineOk) + MoodHeading + LinesText(moods, MoodLine))
    else Failure(TypeError)
  }

  /** The corrected lines agree with the written ones wherever those succeed. */
  lemma {:induction false} FixedLinesAgree(rows: seq<Object>)
    requires LinesOk(rows, JournalLine)
    ensures LinesText(rows, JournalLineOk) == LinesText(rows, JournalLine)
  {
    if rows != [] {
      var init := rows[..|rows| - 1];
      assert LinesOk(init, JournalLine) by {
        forall i | 0 <= i < |init| ensures JournalLine(init[i]).Success? {
          assert init[i] == rows[i];
        }
      }
      FixedLinesAgree(init);
    }
  }

  /** The corrected export succeeds for stored rows and agrees with the
      written export whenever that one succeeds. */
  lemma CsvFixedAgrees(journal: seq<Object>, moods: seq<Object>)
    ensures CsvText(journal, moods).Success? ==> CsvTextFixed(journal, moods) == CsvText(journal, moods)
    ensures LinesOk(moods, MoodLine) ==> CsvTextFixed(journal, moods).Success?
  {
    if CsvText(journal, moods).Success? {
      FixedLinesAgree(journal);
    }
  }
}
