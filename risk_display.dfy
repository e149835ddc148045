/**
 * The risk panel (`components/RiskFactorDisplay.tsx`): the risk factor of the
 * latest simulation classified into four levels, each with its text colour,
 * badge background, progress-bar colour and interpretation message.
 * Layout and animation are not modelled; the percentage the panel prints is
 * kept as a number.
 */
module RiskFactorDisplay {
  import opened Numerics
  import opened Store

  datatype RiskLevel = Low | Medium | High | Critical

  /** The level's position in the order Low < Medium < High < Critical. */
  function Rank(level: RiskLevel): nat {
    match level
    case Low => 0
    case Medium => 1
    case High => 2
    case Critical => 3
  }

  /** `getRiskLevel`: thresholds at 0.2, 0.5 and 0.8. */
  function GetRiskLevel(riskFactor: real): (level: RiskLevel)
    ensures level == Low <==> riskFactor < 0.2
    ensures level == Medium <==> 0.2 <= riskFactor < 0.5
    ensures level == High <==> 0.5 <= riskFactor < 0.8
    ensures level == Critical <==> 0.8 <= riskFactor
  {
    if riskFactor < 0.2 then Low
    else if riskFactor < 0.5 then Medium
    else if riskFactor < 0.8 then High
    else Critical
  }

  /** A larger risk factor never gives a lower level. */
  lemma RiskLevelMonotone(r1: real, r2: real)
    requires r1 <= r2
    ensures Rank(GetRiskLevel(r1)) <= Rank(GetRiskLevel(r2))
  {}

  /** Every level is reached: the thresholds cut the reals into four non-empty bands. */
  lemma EveryRiskLevelReached(level: RiskLevel)
    ensures exists r: real :: 0.0 <= r < 1.0 && GetRiskLevel(r) == level
  {
    match level
    case Low => assert GetRiskLevel(0.0) == Low;
    case Medium => assert GetRiskLevel(0.2) == Medium;
    case High => assert GetRiskLevel(0.5) == High;
    case Critical => assert GetRiskLevel(0.8) == Critical;
  }

  function LevelName(level: RiskLevel): string {
    match level
    case Low => "Low"
    case Medium => "Medium"
    case High => "High"
    case Critical => "Critical"
  }

  /** The level's text colour class. */
  function TextColour(level: RiskLevel): string {
    match level
    case Low => "text-green-400"
    case Medium => "text-yellow-400"
    case High => "text-orange-400"
    case Critical => "text-red-400"
  }

  /** The level's translucent background class. */
  function Background(level: RiskLevel): string {
    match level
    case Low => "bg-green-400/20"
    case Medium => "bg-yellow-400/20"
    case High => "bg-orange-400/20"
    case Critical => "bg-red-400/20"
  }

  /** The progress bar's class, chosen by comparing the level's name. */
  function BarColour(levelName: string): string {
    if levelName == "Low" then "bg-green-400"
    else if levelName == "Medium" then "bg-yellow-400"
    else if levelName == "High" then "bg-orange-400"
    else "bg-red-400"
  }

  /** The interpretation paragraph: exactly one of the four messages is shown. */
  function Interpretation(levelName: string): string {
    if levelName == "Low" then "Minimal threat to Earth. Impact would cause localized damage only."
    else if levelName == "Medium" then "Moderate threat. Regional impact with significant environmental effects."
    else if levelName == "High" then "High threat. Continental-scale damage with global climate effects."
    else if levelName == "Critical" then "Extinction-level threat. Global catastrophe with massive loss of life."
    else ""
  }

  /** The progress-bar class each level is meant to get. */
  function LevelBar(level: RiskLevel): string {
    match level
    case Low => "bg-green-400"
    case Medium => "bg-yellow-400"
    case High => "bg-orange-400"
    case Critical => "bg-red-400"
  }

  /** The interpretation message each level is meant to get. */
  function LevelMessage(level: RiskLevel): string {
    match level
    case Low => "Minimal threat to Earth. Impact would cause localized damage only."
    case Medium => "Moderate threat. Regional impact with significant environmental effects."
    case High => "High threat. Continental-scale damage with global climate effects."
    case Critical => "Extinction-level threat. Global catastrophe with massive loss of life."
  }

  /**
   * Choosing by the level's name picks the level's own bar colour and message:
   * no name falls through to another level's branch or to the empty fallback.
   */
  lemma NameSelectsLevel(level: RiskLevel)
    ensures BarColour(LevelName(level)) == LevelBar(level)
    ensures Interpretation(LevelName(level)) == LevelMessage(level)
  {
    var name := LevelName(level);
    assert "Low"[0] == 'L' && "Medium"[0] == 'M' && "High"[0] == 'H' && "Critical"[0] == 'C';
    match level
    case Low =>
    case Medium => assert name[0] == 'M';
    case High => assert name[0] == 'H';
    case Critical => assert name[0] == 'C';
  }

  /** Distinct levels look and read differently. */
  lemma LevelsDistinguishable(a: RiskLevel, b: RiskLevel)
    requires a != b
    ensures LevelName(a) != LevelName(b)
    ensures TextColour(a) != TextColour(b) && Background(a) != Background(b)
    ensures BarColour(LevelName(a)) != BarColour(LevelName(b))
  {
    assert LevelName(a)[0] != LevelName(b)[0] || |LevelName(a)| != |LevelName(b)|;
    assert TextColour(a)[5] != TextColour(b)[5];
    assert Background(a)[3] != Background(b)[3];
    assert BarColour(LevelName(a))[3] != BarColour(LevelName(b))[3];
  }

  /** What the panel shows. */
  datatype Panel =
    | Placeholder(message: string)
    | Assessment(
        percent: real,
        levelName: string,
        textColour: string,
        background: string,
        barColour: string,
        barWidth: real,
        interpretation: string)

  /**
   * The panel for the store's current results and asteroid: the placeholder
   * unless both are present, otherwise the assessment of the results' risk.
   */
  function Render(results: Option<SimulationResults>, asteroid: Option<Asteroid>): (p: Panel)
    ensures p.Placeholder? <==> results.None? || asteroid.None?
    ensures p.Placeholder? ==> p.message == "Run a simulation to see risk analysis"
    ensures p.Assessment? ==>
      var level := GetRiskLevel(results.value.riskFactor);
      p.levelName == LevelName(level) &&
      p.textColour == TextColour(level) && p.background == Background(level) &&
      p.barColour == LevelBar(level) && p.interpretation == LevelMessage(level) &&
      p.percent == p.barWidth == results.value.riskFactor * 100.0
  {
    if results.None? || asteroid.None? then Placeholder("Run a simulation to see risk analysis")
    else
      var r := results.value.riskFactor;
      var level := GetRiskLevel(r);
      NameSelectsLevel(level);
      Assessment(r * 100.0, LevelName(level), TextColour(level), Background(level),
        BarColour(LevelName(level)), r * 100.0, Interpretation(LevelName(level)))
  }
}
