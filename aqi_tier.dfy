/** The air-quality index scale that both `getAqiInfo` helpers classify into:
    six tiers with inclusive upper bounds 50, 100, 150, 200 and 300, and a
    seventh answer, N/A, for a value that is not available. */
module AqiTier {

  datatype Tier =
    | Good
    | Moderate
    | UnhealthyForSensitive
    | Unhealthy
    | VeryUnhealthy
    | Hazardous
    | NotAvailable

  /** The `status` text shown for a tier. */
  function Label(t: Tier): string {
    match t
    case Good => "Good"
    case Moderate => "Moderate"
    case UnhealthyForSensitive => "Unhealthy for Sensitive"
    case Unhealthy => "Unhealthy"
    case VeryUnhealthy => "Very Unhealthy"
    case Hazardous => "Hazardous"
    case NotAvailable => "N/A"
  }

  /** Position of a real tier on the scale, from 0 (Good) to 5 (Hazardous). */
  function Severity(t: Tier): nat
    requires t != NotAvailable
  {
    match t
    case Good => 0
    case Moderate => 1
    case UnhealthyForSensitive => 2
    case Unhealthy => 3
    case VeryUnhealthy => 4
    case Hazardous => 5
  }

  /** The integer index values a tier stands for. Each band is an interval
      closed at its upper end; N/A stands for no number at all. */
  predicate InBand(t: Tier, n: int) {
    match t
    case Good => n <= 50
    case Moderate => 50 < n <= 100
    case UnhealthyForSensitive => 100 < n <= 150
    case Unhealthy => 150 < n <= 200
    case VeryUnhealthy => 200 < n <= 300
    case Hazardous => 300 < n
    case NotAvailable => false
  }

  /** The bands do not overlap: an index value has at most one tier. */
  lemma BandUnique(s: Tier, t: Tier, n: int)
    requires InBand(s, n) && InBand(t, n)
    ensures s == t
  {
  }

  /** The bands are laid out in order of severity: a larger index value never
      falls in a less severe band. */
  lemma BandsOrdered(s: Tier, m: int, t: Tier, n: int)
    requires InBand(s, m) && InBand(t, n) && m <= n
    ensures s != NotAvailable && t != NotAvailable
    ensures Severity(s) <= Severity(t)
  {
  }
}
