/** The numeric and textual settings of the stats chart (src/config.ts). */
module Config {

  const StatsFileName: string := "stats.svg"
  const StatsHeight: int := 220
  const StatsWidth: int := 850
  const StatsWrapperBorder: int := 1
  const LegendWidth: int := 180
  const LegendMarginX: int := 14
  const LegendMarginY: int := 18
  const GitHubBackgroundColor: string := "rgba(64, 196, 99, 0.3)"
  const GitHubBorderColor: string := "#39d353"
  const NpmBackgroundColor: string := "rgba(255, 196, 99, 0.3)"
  const NpmBorderColor: string := "#ffd353"
  const SeparatorColor: string := "#ff0fff"
}
