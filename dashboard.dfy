/**
 * The traffic-light colours of the dashboard's KPI tiles: a value is red
 * below the first threshold, amber below the second and green otherwise;
 * for a drift-like percentage, where higher is worse, the ladder runs the
 * other way.
 */
module Dashboard {
  const RedHex: string := "E74C3C"
  const AmberHex: string := "F39C12"
  const GreenHex: string := "27AE60"

  /** The default thresholds of `_kpi_colour`. */
  const KpiRedBelow: real := 0.7
  const KpiAmberBelow: real := 0.85

  /** The thresholds of the inverted percentage ladder. */
  const DriftRedAbove: real := 0.30
  const DriftAmberAbove: real := 0.15

  predicate IsColour(c: string) {
    c == RedHex || c == AmberHex || c == GreenHex
  }

  /** How bad a colour is: red 0, amber 1, green 2. */
  function Badness(c: string): nat {
    if c == RedHex then 0 else if c == AmberHex then 1 else 2
  }

  /** `_kpi_colour(value, (t0, t1))`: lower is worse. */
  function KpiColour(value: real, t0: real, t1: real): (c: string)
    ensures IsColour(c)
    ensures c == RedHex <==> value < t0
    ensures c == AmberHex <==> t0 <= value < t1
    ensures c == GreenHex <==> t0 <= value && t1 <= value
  {
    if value < t0 then RedHex
    else if value < t1 then AmberHex
    else GreenHex
  }

  /** `_pct_colour(pct, invert)`: inverted, higher is worse; otherwise the KPI ladder with its defaults. */
  function PctColour(pct: real, invert: bool): (c: string)
    ensures IsColour(c)
    ensures invert ==> (c == RedHex <==> pct > DriftRedAbove)
    ensures invert ==> (c == AmberHex <==> DriftAmberAbove < pct <= DriftRedAbove)
    ensures invert ==> (c == GreenHex <==> pct <= DriftAmberAbove)
    ensures !invert ==> c == KpiColour(pct, KpiRedBelow, KpiAmberBelow)
  {
    if invert then
      if pct > DriftRedAbove then RedHex
      else if pct > DriftAmberAbove then AmberHex
      else GreenHex
    else KpiColour(pct, KpiRedBelow, KpiAmberBelow)
  }

  /** A better KPI value never gets a worse colour. */
  lemma KpiColourMonotone(v: real, w: real, t0: real, t1: real)
    requires v <= w
    ensures Badness(KpiColour(v, t0, t1)) <= Badness(KpiColour(w, t0, t1))
  {
  }

  /** A higher drift never gets a better colour. */
  lemma InvertedColourAntitone(p: real, q: real)
    requires p <= q
    ensures Badness(PctColour(q, true)) <= Badness(PctColour(p, true))
  {
  }
}
