/** The static table of probability thresholds used to recommend a pick when
    no bookmaker odds are available (backend/static/app.js, THRESHOLDS and
    getThreshold). */
module Thresholds {

  /** The markets the application offers. */
  datatype Market = OneXTwo | Over25 | Btts | Spread

  /** Per-market defaults; `Spread` has no entry. */
  const Defaults: map<Market, real> :=
    map[OneXTwo := 0.50, Over25 := 0.53, Btts := 0.52]

  /** Per-league overrides, keyed by the exact league name. */
  const Leagues: map<string, map<Market, real>> :=
    map[
      "LaLiga"         := map[OneXTwo := 0.52, Over25 := 0.54, Btts := 0.53],
      "Premier League" := map[OneXTwo := 0.51, Over25 := 0.55, Btts := 0.52],
      "Liga MX"        := map[OneXTwo := 0.53, Over25 := 0.54, Btts := 0.53]
    ]

  /** Used when the market has no default (`?? 0.50`). */
  const Fallback: real := 0.50

  /** The table written out case by case: the reference the lookup is
      proved against. */
  function TableEntry(m: Market, league: string): real {
    match m
    case Spread => 0.50
    case OneXTwo =>
      if league == "LaLiga" then 0.52
      else if league == "Premier League" then 0.51
      else if league == "Liga MX" then 0.53
      else 0.50
    case Over25 =>
      if league == "LaLiga" then 0.54
      else if league == "Premier League" then 0.55
      else if league == "Liga MX" then 0.54
      else 0.53
    case Btts =>
      if league == "LaLiga" then 0.53
      else if league == "Premier League" then 0.52
      else if league == "Liga MX" then 0.53
      else 0.52
  }

  /** The league's own entry when it has one for the market, else the
      market default, else the global fallback. */
  function GetThreshold(m: Market, league: string): (th: real)
    ensures th == TableEntry(m, league)
    ensures 0.50 <= th <= 0.55
  {
    var d := if m in Defaults then Defaults[m] else Fallback;
    if league in Leagues && m in Leagues[league] then Leagues[league][m] else d
  }

  /** A league missing from the table changes nothing: the market default
      (or the fallback) applies. */
  lemma UnknownLeagueUsesDefault(m: Market, league: string)
    requires league != "LaLiga" && league != "Premier League" && league != "Liga MX"
    ensures GetThreshold(m, league) == (if m in Defaults then Defaults[m] else Fallback)
  {
  }

  /** `Spread` has neither a default nor a league entry, so every league
      gives the fallback. */
  lemma SpreadAlwaysFallback(league: string)
    ensures GetThreshold(Spread, league) == 0.50
  {
  }

  lemma ThresholdExamples()
    ensures GetThreshold(Over25, "LaLiga") == 0.54
    ensures GetThreshold(OneXTwo, "Premier League") == 0.51
    ensures GetThreshold(Btts, "Serie A") == 0.52
  {
  }
}
