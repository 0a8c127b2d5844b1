/**
  The export panel of the mood history: its configuration, the estimated
  file size, the description of the chosen format, the label of the chosen
  date range and the count of data types shown in the summary.
*/
module ExportDataPanel {
  import opened Js
  import MoodFilterPanel
  import MoodSummaryCards

  /** A configuration value: the two selects hold strings, the checkboxes booleans. */
  datatype Setting = Choice(s: string) | Flag(b: bool)

  type Config = map<string, Setting>

  /** The configuration the panel starts with (lines 8-16). */
  const InitialConfig: Config := map[
    "format" := Choice("json"), "dateRange" := Choice("all"),
    "includeContent" := Flag(true), "includeMood" := Flag(true), "includeSentiment" := Flag(true),
    "includeAIInsights" := Flag(false), "includeTimestamps" := Flag(true)]

  /** `exportConfig[key]` as a condition: missing keys are undefined, falsy. */
  predicate Enabled(config: Config, key: string)
  {
    key in config && match config[key]
      case Choice(s) => s != ""
      case Flag(b) => b
  }

  /** `exportConfig.format === 'pdf'` */
  predicate IsPdf(config: Config)
  {
    "format" in config && config["format"] == Choice("pdf")
  }

  class Panel {
    var exportConfig: Config

    constructor ()
      ensures exportConfig == InitialConfig
    {
      exportConfig := InitialConfig;
    }

    /** `handleConfigChange` (lines 33-38): only the given key changes. */
    method ConfigChange(key: string, value: Setting)
      modifies this
      ensures exportConfig == old(exportConfig)[key := value]
      ensures forall k | k in old(exportConfig) && k != key :: k in exportConfig && exportConfig[k] == old(exportConfig)[k]
    {
      exportConfig := exportConfig[key := value];
    }
  }

  // ---------------------------------------------------------------------
  // Estimated size
  // ---------------------------------------------------------------------

  /** The integer part of `getEstimatedSize` (lines 44-49), in KB. */
  function EstimatedKb(config: Config): (kb: nat)
    ensures kb == (50 + (if Enabled(config, "includeContent") then 200 else 0) +
                   (if Enabled(config, "includeAIInsights") then 100 else 0)) * (if IsPdf(config) then 3 else 1)
  {
    var base := 50;
    var withContent := if Enabled(config, "includeContent") then base + 200 else base;
    var withInsights := if Enabled(config, "includeAIInsights") then withContent + 100 else withContent;
    if IsPdf(config) then withInsights * 3 else withInsights
  }

  /** The estimate is one of seven sizes, and passes 1000 KB only for a PDF
      with both the content and the AI insights. */
  lemma EstimateCases(config: Config)
    ensures EstimatedKb(config) in {50, 250, 150, 350, 750, 450, 1050}
    ensures EstimatedKb(config) > 1000 <==>
      IsPdf(config) && Enabled(config, "includeContent") && Enabled(config, "includeAIInsights")
    ensures !IsPdf(config) ==> EstimatedKb(config) <= 350
  {
  }

  /** The size label (line 51); the megabyte figure is a float, not modelled. */
  datatype SizeLabel = Kilobytes(text: string) | Megabytes(kb: nat)

  function SizeText(config: Config): (size: SizeLabel)
    ensures size.Megabytes? <==> EstimatedKb(config) > 1000
    ensures size.Kilobytes? ==> size.text == NatToString(EstimatedKb(config)) + " KB"
  {
    var kb := EstimatedKb(config);
    if kb > 1000 then Megabytes(kb) else Kilobytes(NatToString(kb) + " KB")
  }

  /** The starting configuration estimates 250 KB. */
  lemma InitialEstimate()
    ensures EstimatedKb(InitialConfig) == 250
    ensures SizeText(InitialConfig) == Kilobytes("250 KB")
  {
    assert NatToString(250) == NatToString(25) + [DigitChar(0)];
    assert NatToString(25) == NatToString(2) + [DigitChar(5)];
  }

  // ---------------------------------------------------------------------
  // Format and date range
  // ---------------------------------------------------------------------

  datatype FormatOption = FormatOption(value: string, caption: string, description: string)

  /** The format choices (lines 18-23). */
  const FormatOptions := [
    FormatOption("json", "JSON Format", "Machine-readable structured data"),
    FormatOption("csv", "CSV Format", "Spreadsheet-compatible format"),
    FormatOption("txt", "Text Format", "Human-readable plain text"),
    FormatOption("pdf", "PDF Report", "Formatted document with charts")]

  /** `options.find(f => f.value === format)`. */
  function FindFormat(options: seq<FormatOption>, format: string): (found: Option<FormatOption>)
    ensures found.None? <==> forall i | 0 <= i < |options| :: options[i].value != format
    ensures found.Some? ==> found.value.value == format
    ensures found.Some? ==>
      exists i | 0 <= i < |options| :: options[i] == found.value && forall j | 0 <= j < i :: options[j].value != format
  {
    if options == [] then None
    else if options[0].value == format then Some(options[0])
    else
      var rest := FindFormat(options[1..], format);
      assert forall i | 1 <= i < |options| :: options[i] == options[1..][i - 1];
      rest
  }

  /** `getFormatDescription` (lines 54-57): the description of the chosen
      format, or empty text for a format that is not offered. */
  function FormatDescription(format: string): (description: string)
    ensures description == "" <==> format !in {"json", "csv", "txt", "pdf"}
  {
    FormatsFound(format);
    match FindFormat(FormatOptions, format)
    case None => ""
    case Some(option) => option.description
  }

  /** The four formats are found, nothing else is. */
  lemma FormatsFound(format: string)
    ensures FindFormat(FormatOptions, format).Some? <==> format in {"json", "csv", "txt", "pdf"}
    ensures FindFormat(FormatOptions, format).Some? ==> FindFormat(FormatOptions, format).value.description != ""
  {
    var o := FormatOptions;
    assert o[0].value == "json" && o[1].value == "csv" && o[2].value == "txt" && o[3].value == "pdf";
    if format !in {"json", "csv", "txt", "pdf"} {
      assert forall i | 0 <= i < |o| :: o[i].value != format;
    }
  }

  /** The date-range choices (lines 25-31), as value and label. */
  const DateRangeOptions: seq<(string, string)> :=
    [("all", "All Time"), ("year", "This Year"), ("quarter", "Last 3 Months"),
     ("month", "This Month"), ("week", "This Week")]

  /** The summary's range label agrees with the summary cards' wording for
      every range the panel offers. */
  lemma RangeLabelsAgree(range: string)
    requires MoodFilterPanel.OptionLabel(DateRangeOptions, range).Some?
    ensures MoodFilterPanel.OptionLabel(DateRangeOptions, range).value == MoodSummaryCards.FormatTimeRange(range)
  {
    var o := DateRangeOptions;
    var caption := MoodFilterPanel.OptionLabel(o, range).value;
    var i :| 0 <= i < |o| && o[i] == (range, caption);
    assert i == 0 || i == 1 || i == 2 || i == 3 || i == 4;
  }

  // ---------------------------------------------------------------------
  // Data-type count
  // ---------------------------------------------------------------------

  /** The keys whose value is exactly `true`. */
  function TrueKeys(config: Config): set<string>
  {
    set k | k in config && config[k] == Flag(true)
  }

  /** The "data types included" figure (line 172): the values equal to
      `true`, less one. */
  function DataTypeCount(config: Config): (n: int)
    ensures n == -1 <==> forall k | k in config :: config[k] != Flag(true)
    ensures n >= -1
    ensures n == |TrueKeys(config)| - 1
  {
    var keys := TrueKeys(config);
    if forall k | k in config :: config[k] != Flag(true) then
      assert keys == {};
      -1
    else
      var k :| k in config && config[k] == Flag(true);
      assert k in keys;
      |keys| - 1
  }

  /** The starting configuration shows three data types; switching one more
      checkbox on adds one. */
  lemma CountFollowsCheckboxes(config: Config, key: string)
    requires key in config && config[key] == Flag(false)
    ensures DataTypeCount(config[key := Flag(true)]) == DataTypeCount(config) + 1
    ensures DataTypeCount(InitialConfig) == 3
  {
    var after := config[key := Flag(true)];
    assert TrueKeys(after) == TrueKeys(config) + {key};
    assert key in TrueKeys(after);
    InitialTrueKeys();
  }

  /** Four checkboxes start switched on. */
  lemma InitialTrueKeys()
    ensures DataTypeCount(InitialConfig) == 3
  {
    var init := TrueKeys(InitialConfig);
    assert init == {"includeContent", "includeMood", "includeSentiment", "includeTimestamps"};
    assert "includeContent" in init;
  }
}
