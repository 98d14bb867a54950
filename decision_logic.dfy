/**
 * The severity rule for environmental readings and the pesticide strategy
 * chosen for a severity.
 */
module DecisionLogic {

  /** The three severity tiers, ordered by the risk they signal. */
  datatype Severity = Low | Medium | High
  {
    /** The label the advisory record carries for this severity. */
    function Name(): string
    {
      match this
      case Low => "Low"
      case Medium => "Medium"
      case High => "High"
    }

    /** The position of this severity in the order Low < Medium < High. */
    function Rank(): nat
    {
      match this
      case Low => 0
      case Medium => 1
      case High => 2
    }
  }

  /**
   * Severity from humidity (percent) and temperature (degrees): both above
   * their thresholds gives High, humidity alone above 60 gives Medium, and
   * anything else Low. Every comparison is strict.
   */
  function AssessSeverity(humidity: real, temperature: real): (s: Severity)
    ensures s == High <==> humidity > 75.0 && temperature > 30.0
    ensures s == Medium <==> humidity > 60.0 && !(humidity > 75.0 && temperature > 30.0)
    ensures s == Low <==> humidity <= 60.0
  {
    if humidity > 75.0 && temperature > 30.0 then High
    else if humidity > 60.0 then Medium
    else Low
  }

  /** Raising humidity or temperature never lowers the severity. */
  lemma AssessSeverityMonotonic(h1: real, t1: real, h2: real, t2: real)
    requires h1 <= h2 && t1 <= t2
    ensures AssessSeverity(h1, t1).Rank() <= AssessSeverity(h2, t2).Rank()
  {
  }

  /** Boundary readings fall to the tier below. */
  lemma AssessSeverityBoundaries()
    ensures AssessSeverity(75.0, 31.0) == Medium
    ensures AssessSeverity(80.0, 30.0) == Medium
    ensures AssessSeverity(60.0, 45.0) == Low
  {
  }

  const TargetedChemical := "Targeted chemical treatment required"
  const LimitedChemical := "Organic treatment with limited chemical use"
  const PreventiveOnly := "Preventive organic measures only"

  /**
   * The pesticide strategy for a severity label. Total: any label other than
   * "High" and "Medium", "Low" included, gets the preventive strategy.
   */
  function PesticideOptimization(severity: string): (r: string)
    ensures severity == "High" ==> r == TargetedChemical
    ensures severity == "Medium" ==> r == LimitedChemical
    ensures severity != "High" && severity != "Medium" ==> r == PreventiveOnly
    ensures r != ""
  {
    if severity == "High" then TargetedChemical
    else if severity == "Medium" then LimitedChemical
    else PreventiveOnly
  }

  /** Different severities get different strategies, so the strategy tells the severity. */
  lemma StrategyIdentifiesSeverity(a: Severity, b: Severity)
    requires PesticideOptimization(a.Name()) == PesticideOptimization(b.Name())
    ensures a == b
  {
  }
}
