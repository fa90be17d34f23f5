/**
 * The stats chart of src/svg.ts: the `[[NAME]]` template
 * `templates/stats.svg` filled with the chart's size and data into
 * `assets/stats.svg`, where a missing or empty variable throws.
 */
module Svg {
  import opened Wrappers
  import opened Decimal
  import opened Config
  import opened Templates

  /** `generateChart(fileName, variables)`. */
  function GenerateChart(files: FileSystem, fileName: string, variables: map<string, string>): (r: Run)
    ensures r.error.None? <==>
      PathJoin("templates", fileName) in files &&
      forall i :: 0 <= i < |Tokenize(Brackets, files[PathJoin("templates", fileName)])| ==>
        !MissingOrEmpty(variables, Tokenize(Brackets, files[PathJoin("templates", fileName)])[i])
    ensures r.error.Some? ==> r.files == files
    ensures r.error.Some? && r.error.value.Invalid? ==> !r.error.value.error.typeError
    ensures r.error.None? ==>
      Substitute(Brackets, RejectFalsy, files[PathJoin("templates", fileName)], StringValues(variables)).Success?
    ensures r.error.None? ==>
      r.files == files[PathJoin("assets", fileName) :=
                       Substitute(Brackets, RejectFalsy, files[PathJoin("templates", fileName)], StringValues(variables)).value]
  {
    var path := PathJoin("templates", fileName);
    if path in files then
      FalsyStringsRejected(Brackets, files[path], variables);
      SubstituteFailsIffRejected(Brackets, RejectFalsy, files[path], StringValues(variables));
      Process(files, Brackets, RejectFalsy, path, PathJoin("assets", fileName), StringValues(variables))
    else
      Process(files, Brackets, RejectFalsy, path, PathJoin("assets", fileName), StringValues(variables))
  }

  /**
   * The variables record of `generateStatsChart`: exactly the three names,
   * the chart data passed through and non-empty sizes.
   */
  function StatsChartVariables(statsChartData: string): (r: map<string, string>)
    ensures r.Keys == {"CHART_DATA", "HEIGHT", "WIDTH"}
    ensures r["CHART_DATA"] == statsChartData
    ensures r["HEIGHT"] != "" && r["WIDTH"] != ""
  {
    map[
      "CHART_DATA" := statsChartData,
      "HEIGHT" := IntToString(StatsHeight),
      "WIDTH" := IntToString(StatsWidth)
    ]
  }

  /**
   * `generateStatsChart(statsChartData)`. A failure writes nothing and is
   * a plain `Error`; a success writes the template filled with the record
   * to `assets/stats.svg` and nothing else.
   */
  function GenerateStatsChart(files: FileSystem, statsChartData: string): (r: Run)
    ensures r.error.Some? ==> r.files == files
    ensures r.error.Some? && r.error.value.Invalid? ==> !r.error.value.error.typeError
    ensures r.error.None? ==>
      PathJoin("templates", StatsFileName) in files &&
      Substitute(Brackets, RejectFalsy, files[PathJoin("templates", StatsFileName)],
                 StringValues(StatsChartVariables(statsChartData))).Success?
    ensures r.error.None? ==>
      r.files == files[PathJoin("assets", StatsFileName) :=
                       Substitute(Brackets, RejectFalsy, files[PathJoin("templates", StatsFileName)],
                                  StringValues(StatsChartVariables(statsChartData))).value]
  {
    GenerateChart(files, StatsFileName, StatsChartVariables(statsChartData))
  }

  /** The sizes are the view box's height and width as numerals. */
  lemma StatsChartSize(statsChartData: string)
    ensures ParseInt(StatsChartVariables(statsChartData)["HEIGHT"]) == Some(StatsHeight)
    ensures ParseInt(StatsChartVariables(statsChartData)["WIDTH"]) == Some(StatsWidth)
  {
    var v := StatsChartVariables(statsChartData);
    NumeralEntry(v, "HEIGHT", StatsHeight, []);
    NumeralEntry(v, "WIDTH", StatsWidth, []);
  }

  /**
   * The stats chart fails exactly when the template is missing, names a
   * variable other than the three, or uses `CHART_DATA` while the chart data
   * is empty.
   */
  lemma StatsChartFailsIff(files: FileSystem, statsChartData: string)
    ensures var path := PathJoin("templates", StatsFileName);
      GenerateStatsChart(files, statsChartData).error.Some? <==>
        (path !in files ||
         exists i :: 0 <= i < |Tokenize(Brackets, files[path])| &&
           Tokenize(Brackets, files[path])[i].Placeholder? &&
           (Tokenize(Brackets, files[path])[i].name !in {"CHART_DATA", "HEIGHT", "WIDTH"} ||
            (Tokenize(Brackets, files[path])[i].name == "CHART_DATA" && statsChartData == "")))
  {
    var path := PathJoin("templates", StatsFileName);
    var variables := StatsChartVariables(statsChartData);
    if path in files {
      var tokens := Tokenize(Brackets, files[path]);
      FalsyStringsRejected(Brackets, files[path], variables);
      forall i | 0 <= i < |tokens|
        ensures MissingOrEmpty(variables, tokens[i]) <==>
          tokens[i].Placeholder? &&
          (tokens[i].name !in {"CHART_DATA", "HEIGHT", "WIDTH"} || (tokens[i].name == "CHART_DATA" && statsChartData == ""))
      {
      }
    }
  }

  /** `[[` without a word run and `]]` after it is text: `[[]]` is copied as it is. */
  lemma EmptyBracketsAreText(t: string, vars: map<string, Value>)
    requires EmptyBrackets(t)
    ensures Substitute(Brackets, RejectFalsy, t, vars) == Success(t)
  {
    EmptyBracketsTokens(t);
    LiteralTokensOnly(t, [Literal('['), Literal('['), Literal(']'), Literal(']')], vars);
  }

  lemma LiteralTokensOnly(t: string, tokens: seq<Token>, vars: map<string, Value>)
    requires Tokenize(Brackets, t) == tokens
    requires forall i :: 0 <= i < |tokens| ==> tokens[i].Literal?
    ensures Substitute(Brackets, RejectFalsy, t, vars) == Success(t)
  {
    TemplateWithoutPlaceholders(Brackets, RejectFalsy, t, vars);
  }

  /** `[[]]`, spelled out character by character. */
  predicate EmptyBrackets(t: string) {
    |t| == 4 && t[0] == '[' && t[1] == '[' && t[2] == ']' && t[3] == ']'
  }

  lemma EmptyBracketsTokens(t: string)
    requires EmptyBrackets(t)
    ensures Tokenize(Brackets, t) == [Literal('['), Literal('['), Literal(']'), Literal(']')]
  {
    assert WordRun(t[2..]) == 0;
    assert MatchAt(Brackets, t) == None;
    assert MatchAt(Brackets, t[1..]) == None;
    assert MatchAt(Brackets, t[2..]) == None;
    assert MatchAt(Brackets, t[3..]) == None;
    assert t[1..][1..] == t[2..] && t[2..][1..] == t[3..] && t[3..][1..] == [];
    UnfoldLiteral(Brackets, t);
    UnfoldLiteral(Brackets, t[1..]);
    UnfoldLiteral(Brackets, t[2..]);
    UnfoldLiteral(Brackets, t[3..]);
  }
}
