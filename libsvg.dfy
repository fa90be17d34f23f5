/**
 * The stats chart of src/libs/svg.ts: the `__NAME__` template
 * `templates/stats.svg` filled with the chart's layout and colours into
 * `assets/stats.svg`, where a missing or empty variable throws.
 */
module LibSvg {
  import opened Wrappers
  import opened Decimal
  import opened Config
  import opened Templates

  /** `generateChart(fileName, variables)`. */
  function GenerateChart(files: FileSystem, fileName: string, variables: map<string, string>): (r: Run)
    ensures r.error.None? <==>
      PathJoin("templates", fileName) in files &&
      forall i :: 0 <= i < |Tokenize(Underscores, files[PathJoin("templates", fileName)])| ==>
        !MissingOrEmpty(variables, Tokenize(Underscores, files[PathJoin("templates", fileName)])[i])
    ensures r.error.Some? ==> r.files == files
    ensures r.error.Some? && r.error.value.Invalid? ==> !r.error.value.error.typeError
    ensures r.error.None? ==>
      Substitute(Underscores, RejectFalsy, files[PathJoin("templates", fileName)], StringValues(variables)).Success?
    ensures r.error.None? ==>
      r.files == files[PathJoin("assets", fileName) :=
                       Substitute(Underscores, RejectFalsy, files[PathJoin("templates", fileName)], StringValues(variables)).value]
  {
    var path := PathJoin("templates", fileName);
    if path in files then
      FalsyStringsRejected(Underscores, files[path], variables);
      SubstituteFailsIffRejected(Underscores, RejectFalsy, files[path], StringValues(variables));
      Process(files, Underscores, RejectFalsy, path, PathJoin("assets", fileName), StringValues(variables))
    else
      Process(files, Underscores, RejectFalsy, path, PathJoin("assets", fileName), StringValues(variables))
  }

  /** The keys of the record other than the legend position. */
  const LayoutNames: set<string> := {
    "CHART_DATA", "CHART_HEIGHT", "CHART_WIDTH",
    "LEGEND_GITHUB_TITLE_COLOR", "LEGEND_GITHUB_VALUE_COLOR", "LEGEND_NPM_TITLE_COLOR", "LEGEND_NPM_VALUE_COLOR",
    "SEPARATOR_COLOR", "VIEW_BOX_HEIGHT", "VIEW_BOX_WIDTH", "WRAPPER_HEIGHT", "WRAPPER_WIDTH"
  }

  /** The keys of the variables record. */
  const StatsChartNames: set<string> := LayoutNames + {"LEGEND_X", "LEGEND_Y"}

  /** Every entry of the record except the legend position. */
  function LayoutVariables(statsChartData: string): map<string, string> {
    map[
      "CHART_DATA" := statsChartData,
      "CHART_HEIGHT" := IntToString(StatsHeight - StatsWrapperBorder * 2),
      "CHART_WIDTH" := IntToString(StatsWidth - LegendWidth - StatsWrapperBorder * 2),
      "LEGEND_GITHUB_TITLE_COLOR" := GitHubBackgroundColor,
      "LEGEND_GITHUB_VALUE_COLOR" := GitHubBorderColor,
      "LEGEND_NPM_TITLE_COLOR" := NpmBackgroundColor,
      "LEGEND_NPM_VALUE_COLOR" := NpmBorderColor,
      "SEPARATOR_COLOR" := SeparatorColor,
      "VIEW_BOX_HEIGHT" := IntToString(StatsHeight),
      "VIEW_BOX_WIDTH" := IntToString(StatsWidth),
      "WRAPPER_HEIGHT" := IntToString(StatsHeight - StatsWrapperBorder),
      "WRAPPER_WIDTH" := IntToString(StatsWidth - StatsWrapperBorder)
    ]
  }

  lemma LayoutChartData(statsChartData: string)
    ensures "CHART_DATA" in LayoutVariables(statsChartData)
    ensures LayoutVariables(statsChartData)["CHART_DATA"] == statsChartData
  {
  }

  lemma LayoutKeys(statsChartData: string)
    ensures LayoutVariables(statsChartData).Keys == LayoutNames
  {
  }

  /** `String({ x: 14, y: 18 })`, the text a number plus the margin object concatenates. */
  const ObjectText: string := "[object Object]"

  /**
   * The record as written: the legend position adds the whole
   * `legend.margin` object to a number, which concatenates its text.
   */
  function StatsChartVariablesAsWritten(statsChartData: string): (r: map<string, string>)
    ensures "CHART_DATA" in r && r["CHART_DATA"] == statsChartData
  {
    LayoutChartData(statsChartData);
    LayoutVariables(statsChartData)[
      "LEGEND_X" := IntToString(StatsWidth - LegendWidth - StatsWrapperBorder * 2) + ObjectText][
      "LEGEND_Y" := IntToString(StatsWrapperBorder) + ObjectText]
  }

  /** The record with the margin's `x` and `y` added, as the layout means. */
  function StatsChartVariables(statsChartData: string): (r: map<string, string>)
    ensures "CHART_DATA" in r && r["CHART_DATA"] == statsChartData
  {
    LayoutChartData(statsChartData);
    LayoutVariables(statsChartData)[
      "LEGEND_X" := IntToString(StatsWidth - LegendWidth - StatsWrapperBorder * 2 + LegendMarginX)][
      "LEGEND_Y" := IntToString(StatsWrapperBorder + LegendMarginY)]
  }

  /** Both records have exactly the names the template may use. */
  lemma StatsChartEntries(statsChartData: string)
    ensures StatsChartVariablesAsWritten(statsChartData).Keys == StatsChartNames
    ensures StatsChartVariables(statsChartData).Keys == StatsChartNames
  {
    var layout := LayoutVariables(statsChartData);
    LayoutKeys(statsChartData);
    WithLegendKeys(layout, IntToString(StatsWidth - LegendWidth - StatsWrapperBorder * 2) + ObjectText,
                   IntToString(StatsWrapperBorder) + ObjectText);
    WithLegendKeys(layout, IntToString(StatsWidth - LegendWidth - StatsWrapperBorder * 2 + LegendMarginX),
                   IntToString(StatsWrapperBorder + LegendMarginY));
  }

  lemma WithLegendKeys(layout: map<string, string>, x: string, y: string)
    requires layout.Keys == LayoutNames
    ensures layout["LEGEND_X" := x]["LEGEND_Y" := y].Keys == StatsChartNames
  {
    assert layout["LEGEND_X" := x]["LEGEND_Y" := y].Keys == LayoutNames + {"LEGEND_X"} + {"LEGEND_Y"};
  }

  /** The two records differ in the legend position only: every other entry is the layout's. */
  lemma RecordsAgreeOutsideLegend(statsChartData: string, k: string)
    requires k in LayoutVariables(statsChartData) && k != "LEGEND_X" && k != "LEGEND_Y"
    ensures k in StatsChartVariablesAsWritten(statsChartData) && k in StatsChartVariables(statsChartData)
    ensures StatsChartVariablesAsWritten(statsChartData)[k] == LayoutVariables(statsChartData)[k]
    ensures StatsChartVariables(statsChartData)[k] == LayoutVariables(statsChartData)[k]
  {
  }

  /** The file the stats chart is written to, holding the filled template. */
  function StatsChartOutput(files: FileSystem, variables: map<string, string>): FileSystem
    requires PathJoin("templates", StatsFileName) in files
    requires Substitute(Underscores, RejectFalsy, files[PathJoin("templates", StatsFileName)], StringValues(variables)).Success?
  {
    files[PathJoin("assets", StatsFileName) :=
          Substitute(Underscores, RejectFalsy, files[PathJoin("templates", StatsFileName)], StringValues(variables)).value]
  }

  /**
   * `generateStatsChart(statsChartData)` as written. A failure writes
   * nothing and is a plain `Error`; a success writes the template filled
   * with the as-written record to `assets/stats.svg` and nothing else.
   */
  function GenerateStatsChart(files: FileSystem, statsChartData: string): (r: Run)
    ensures r.error.Some? ==> r.files == files
    ensures r.error.Some? && r.error.value.Invalid? ==> !r.error.value.error.typeError
    ensures r.error.None? ==>
      PathJoin("templates", StatsFileName) in files &&
      Substitute(Underscores, RejectFalsy, files[PathJoin("templates", StatsFileName)],
                 StringValues(StatsChartVariablesAsWritten(statsChartData))).Success?
    ensures r.error.None? ==> r.files == StatsChartOutput(files, StatsChartVariablesAsWritten(statsChartData))
  {
    GenerateChart(files, StatsFileName, StatsChartVariablesAsWritten(statsChartData))
  }

  /** The same with the corrected record. */
  function GenerateStatsChartIntended(files: FileSystem, statsChartData: string): (r: Run)
    ensures r.error.Some? ==> r.files == files
    ensures r.error.Some? && r.error.value.Invalid? ==> !r.error.value.error.typeError
    ensures r.error.None? ==>
      PathJoin("templates", StatsFileName) in files &&
      Substitute(Underscores, RejectFalsy, files[PathJoin("templates", StatsFileName)],
                 StringValues(StatsChartVariables(statsChartData))).Success?
    ensures r.error.None? ==> r.files == StatsChartOutput(files, StatsChartVariables(statsChartData))
  {
    GenerateChart(files, StatsFileName, StatsChartVariables(statsChartData))
  }

  /** Every value other than the chart data is non-empty, in both records, so `!value` accepts it. */
  lemma StatsChartValuesNonEmpty(statsChartData: string)
    ensures forall k :: k in StatsChartVariablesAsWritten(statsChartData) && k != "CHART_DATA" ==>
      StatsChartVariablesAsWritten(statsChartData)[k] != ""
    ensures forall k :: k in StatsChartVariables(statsChartData) && k != "CHART_DATA" ==>
      StatsChartVariables(statsChartData)[k] != ""
  {
    var layout := LayoutVariables(statsChartData);
    LayoutNonEmpty(statsChartData);
    WithLegendNonEmpty(layout, IntToString(StatsWidth - LegendWidth - StatsWrapperBorder * 2) + ObjectText,
                       IntToString(StatsWrapperBorder) + ObjectText, StatsChartVariablesAsWritten(statsChartData));
    WithLegendNonEmpty(layout, IntToString(StatsWidth - LegendWidth - StatsWrapperBorder * 2 + LegendMarginX),
                       IntToString(StatsWrapperBorder + LegendMarginY), StatsChartVariables(statsChartData));
  }

  lemma LayoutNonEmpty(statsChartData: string)
    ensures forall k :: k in LayoutVariables(statsChartData) && k != "CHART_DATA" ==> LayoutVariables(statsChartData)[k] != ""
  {
  }

  lemma WithLegendNonEmpty(layout: map<string, string>, x: string, y: string, r: map<string, string>)
    requires forall k :: k in layout && k != "CHART_DATA" ==> layout[k] != ""
    requires x != "" && y != "" && r == layout["LEGEND_X" := x]["LEGEND_Y" := y]
    ensures forall k :: k in r && k != "CHART_DATA" ==> r[k] != ""
  {
  }

  /** The legend and separator colours are the configured ones. */
  lemma StatsChartColours(statsChartData: string)
    ensures StatsChartVariables(statsChartData)["LEGEND_GITHUB_TITLE_COLOR"] == GitHubBackgroundColor
    ensures StatsChartVariables(statsChartData)["LEGEND_GITHUB_VALUE_COLOR"] == GitHubBorderColor
    ensures StatsChartVariables(statsChartData)["LEGEND_NPM_TITLE_COLOR"] == NpmBackgroundColor
    ensures StatsChartVariables(statsChartData)["LEGEND_NPM_VALUE_COLOR"] == NpmBorderColor
    ensures StatsChartVariables(statsChartData)["SEPARATOR_COLOR"] == SeparatorColor
  {
    var v := StatsChartVariables(statsChartData);
    var layout := LayoutVariables(statsChartData);
    assert v["LEGEND_GITHUB_TITLE_COLOR"] == layout["LEGEND_GITHUB_TITLE_COLOR"];
    assert v["LEGEND_GITHUB_VALUE_COLOR"] == layout["LEGEND_GITHUB_VALUE_COLOR"];
    assert v["LEGEND_NPM_TITLE_COLOR"] == layout["LEGEND_NPM_TITLE_COLOR"];
    assert v["LEGEND_NPM_VALUE_COLOR"] == layout["LEGEND_NPM_VALUE_COLOR"];
    assert v["SEPARATOR_COLOR"] == layout["SEPARATOR_COLOR"];
  }

  /** The view box is the configured height and width. */
  lemma StatsViewBox(statsChartData: string)
    ensures ParseInt(StatsChartVariables(statsChartData)["VIEW_BOX_HEIGHT"]) == Some(StatsHeight)
    ensures ParseInt(StatsChartVariables(statsChartData)["VIEW_BOX_WIDTH"]) == Some(StatsWidth)
  {
    var v := StatsChartVariables(statsChartData);
    var layout := LayoutVariables(statsChartData);
    assert v["VIEW_BOX_HEIGHT"] == layout["VIEW_BOX_HEIGHT"] && v["VIEW_BOX_WIDTH"] == layout["VIEW_BOX_WIDTH"];
    assert layout["VIEW_BOX_HEIGHT"] == IntToString(StatsHeight) + [];
    assert layout["VIEW_BOX_WIDTH"] == IntToString(StatsWidth) + [];
    NumeralEntry(v, "VIEW_BOX_HEIGHT", StatsHeight, []);
    NumeralEntry(v, "VIEW_BOX_WIDTH", StatsWidth, []);
  }

  /** The chart area is the view box less both borders and, across, less the legend. */
  lemma StatsChartArea(statsChartData: string)
    ensures ParseInt(StatsChartVariables(statsChartData)["CHART_HEIGHT"]) == Some(StatsHeight - 2 * StatsWrapperBorder)
    ensures ParseInt(StatsChartVariables(statsChartData)["CHART_WIDTH"])
         == Some(StatsWidth - LegendWidth - 2 * StatsWrapperBorder)
  {
    var v := StatsChartVariables(statsChartData);
    var layout := LayoutVariables(statsChartData);
    assert v["CHART_HEIGHT"] == layout["CHART_HEIGHT"] && v["CHART_WIDTH"] == layout["CHART_WIDTH"];
    assert layout["CHART_HEIGHT"] == IntToString(StatsHeight - StatsWrapperBorder * 2) + [];
    assert layout["CHART_WIDTH"] == IntToString(StatsWidth - LegendWidth - StatsWrapperBorder * 2) + [];
    NumeralEntry(v, "CHART_HEIGHT", StatsHeight - StatsWrapperBorder * 2, []);
    NumeralEntry(v, "CHART_WIDTH", StatsWidth - LegendWidth - StatsWrapperBorder * 2, []);
  }

  /** The wrapper is the view box less one border. */
  lemma StatsWrapper(statsChartData: string)
    ensures ParseInt(StatsChartVariables(statsChartData)["WRAPPER_HEIGHT"]) == Some(StatsHeight - StatsWrapperBorder)
    ensures ParseInt(StatsChartVariables(statsChartData)["WRAPPER_WIDTH"]) == Some(StatsWidth - StatsWrapperBorder)
  {
    var v := StatsChartVariables(statsChartData);
    var layout := LayoutVariables(statsChartData);
    assert v["WRAPPER_HEIGHT"] == layout["WRAPPER_HEIGHT"] && v["WRAPPER_WIDTH"] == layout["WRAPPER_WIDTH"];
    assert layout["WRAPPER_HEIGHT"] == IntToString(StatsHeight - StatsWrapperBorder) + [];
    assert layout["WRAPPER_WIDTH"] == IntToString(StatsWidth - StatsWrapperBorder) + [];
    NumeralEntry(v, "WRAPPER_HEIGHT", StatsHeight - StatsWrapperBorder, []);
    NumeralEntry(v, "WRAPPER_WIDTH", StatsWidth - StatsWrapperBorder, []);
  }

  /** The legend sits `margin.x` right of the chart area and `margin.y` below the top border. */
  lemma LegendPosition(statsChartData: string)
    ensures ParseInt(StatsChartVariables(statsChartData)["LEGEND_X"])
         == Some(StatsWidth - LegendWidth - 2 * StatsWrapperBorder + LegendMarginX)
    ensures ParseInt(StatsChartVariables(statsChartData)["LEGEND_Y"]) == Some(StatsWrapperBorder + LegendMarginY)
  {
    var v := StatsChartVariables(statsChartData);
    NumeralEntry(v, "LEGEND_X", StatsWidth - LegendWidth - StatsWrapperBorder * 2 + LegendMarginX, []);
    NumeralEntry(v, "LEGEND_Y", StatsWrapperBorder + LegendMarginY, []);
  }

  /** As written, the legend position is the chart-area edge followed by `[object Object]`. */
  lemma LegendTextAsWritten(statsChartData: string)
    ensures StatsChartVariablesAsWritten(statsChartData)["LEGEND_X"] == "668" + ObjectText
    ensures StatsChartVariablesAsWritten(statsChartData)["LEGEND_Y"] == "1" + ObjectText
  {
    var v := StatsChartVariablesAsWritten(statsChartData);
    assert v["LEGEND_X"] == IntToString(668) + ObjectText;
    assert v["LEGEND_Y"] == IntToString(1) + ObjectText;
    assert IntToString(668) == "668" by {
      assert NatToString(6) == "6";
      assert NatToString(66) == "66";
    }
  }

  /**
   * Read as numbers, the as-written legend position loses the margin: it
   * is the chart-area edge and the top border, not the positions the
   * corrected record holds.
   */
  lemma LegendPositionAsWritten(statsChartData: string)
    ensures ParseInt(StatsChartVariablesAsWritten(statsChartData)["LEGEND_X"])
         == Some(StatsWidth - LegendWidth - 2 * StatsWrapperBorder)
    ensures ParseInt(StatsChartVariablesAsWritten(statsChartData)["LEGEND_Y"]) == Some(StatsWrapperBorder)
    ensures ParseInt(StatsChartVariablesAsWritten(statsChartData)["LEGEND_X"])
         != ParseInt(StatsChartVariables(statsChartData)["LEGEND_X"])
    ensures ParseInt(StatsChartVariablesAsWritten(statsChartData)["LEGEND_Y"])
         != ParseInt(StatsChartVariables(statsChartData)["LEGEND_Y"])
  {
    var v := StatsChartVariablesAsWritten(statsChartData);
    NumeralEntry(v, "LEGEND_X", StatsWidth - LegendWidth - StatsWrapperBorder * 2, ObjectText);
    NumeralEntry(v, "LEGEND_Y", StatsWrapperBorder, ObjectText);
    LegendPosition(statsChartData);
  }

  /**
   * The template is missing, names a variable the record does not have,
   * or uses `CHART_DATA` while the chart data is empty.
   */
  predicate StatsTemplateRejects(files: FileSystem, statsChartData: string) {
    var path := PathJoin("templates", StatsFileName);
    path !in files ||
    exists i :: 0 <= i < |Tokenize(Underscores, files[path])| &&
      Tokenize(Underscores, files[path])[i].Placeholder? &&
      (Tokenize(Underscores, files[path])[i].name !in StatsChartNames ||
       (Tokenize(Underscores, files[path])[i].name == "CHART_DATA" && statsChartData == ""))
  }

  /** Any record with the fourteen names, the chart data and otherwise non-empty values fails the same way. */
  lemma RecordFailsIff(files: FileSystem, statsChartData: string, variables: map<string, string>)
    requires variables.Keys == StatsChartNames
    requires "CHART_DATA" in variables && variables["CHART_DATA"] == statsChartData
    requires forall k :: k in variables && k != "CHART_DATA" ==> variables[k] != ""
    ensures GenerateChart(files, StatsFileName, variables).error.Some? <==> StatsTemplateRejects(files, statsChartData)
  {
    var path := PathJoin("templates", StatsFileName);
    if path in files {
      var tokens := Tokenize(Underscores, files[path]);
      FalsyStringsRejected(Underscores, files[path], variables);
      forall i | 0 <= i < |tokens|
        ensures MissingOrEmpty(variables, tokens[i]) <==>
          tokens[i].Placeholder? &&
          (tokens[i].name !in StatsChartNames || (tokens[i].name == "CHART_DATA" && statsChartData == ""))
      {
      }
    }
  }

  /**
   * The stats chart fails exactly when the template is missing, names a
   * variable the record does not have, or uses `CHART_DATA` while the chart
   * data is empty, with either record: the legend text never decides
   * whether it fails. What a success writes is stated by
   * `GenerateStatsChart` and `GenerateStatsChartIntended`.
   */
  lemma StatsChartFailsIff(files: FileSystem, statsChartData: string)
    ensures GenerateStatsChart(files, statsChartData).error.Some? <==> StatsTemplateRejects(files, statsChartData)
    ensures GenerateStatsChartIntended(files, statsChartData).error.Some? <==> StatsTemplateRejects(files, statsChartData)
  {
    StatsChartEntries(statsChartData);
    StatsChartValuesNonEmpty(statsChartData);
    RecordFailsIff(files, statsChartData, StatsChartVariablesAsWritten(statsChartData));
    RecordFailsIff(files, statsChartData, StatsChartVariables(statsChartData));
  }
}
