/**
 * Global constant tables: the four risk bands on the 0-100 score and the three
 * WHO recreational-water cyanobacteria thresholds (WHO, Guidelines for Safe
 * Recreational Water Environments, Vol. 1, 2003, chapter 8).
 */
module Constants {

  datatype RiskBand = RiskBand(name: string, min: int, max: int, color: string, displayLabel: string)

  const RiskLevels: seq<RiskBand> := [
    RiskBand("SAFE", 0, 25, "#2ecc71", "Safe"),
    RiskBand("LOW", 25, 50, "#f1c40f", "Low Risk"),
    RiskBand("WARNING", 50, 75, "#e67e22", "Warning"),
    RiskBand("CRITICAL", 75, 100, "#e74c3c", "Critical")
  ]

  datatype WhoThreshold = WhoThreshold(name: string, cells: int, color: string, description: string)

  const WhoCyanoThresholds: seq<WhoThreshold> := [
    WhoThreshold("WHO Low", 20_000, "#2ecc71",
      "Relatively low probability of adverse health effects."),
    WhoThreshold("WHO Moderate", 100_000, "#f1c40f",
      "Moderate probability of adverse health effects."),
    WhoThreshold("WHO High", 10_000_000, "#e74c3c",
      "High probability of adverse health effects during recreational exposure.")
  ]

  /** The bands tile [0, 100]: each band ends where the next begins, at 25, 50 and 75. */
  lemma RiskLevelsContiguous()
    ensures |RiskLevels| == 4
    ensures RiskLevels[0].min == 0 && RiskLevels[3].max == 100
    ensures forall i :: 0 <= i < 3 ==> RiskLevels[i].max == RiskLevels[i + 1].min
    ensures forall i :: 0 <= i < 4 ==> RiskLevels[i].min < RiskLevels[i].max
    ensures RiskLevels[1].min == 25 && RiskLevels[2].min == 50 && RiskLevels[3].min == 75
  {
  }

  /** The WHO cell thresholds are strictly increasing: 20,000 < 100,000 < 10,000,000. */
  lemma WhoThresholdsIncreasing()
    ensures |WhoCyanoThresholds| == 3
    ensures forall i, j :: 0 <= i < j < 3 ==> WhoCyanoThresholds[i].cells < WhoCyanoThresholds[j].cells
    ensures WhoCyanoThresholds[0].cells == 20_000
    ensures WhoCyanoThresholds[1].cells == 100_000
    ensures WhoCyanoThresholds[2].cells == 10_000_000
  {
  }
}
