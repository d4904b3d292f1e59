/** The accessibility score card: a per-lot record looked up with a default,
    a weighted overall score rounded to an integer, and the label, colour and
    metric descriptions chosen by thresholds. */
module AccessibilityScore {

  /** The three quality figures are percentages in the source's table. */
  datatype AccessibilityData = AccessibilityData(
    distanceScore: int, pathQuality: int, lightingQuality: int,
    coveredParking: bool, evCharging: bool, notes: seq<string>)

  const Table: map<string, AccessibilityData> := map[
    "12th_avenue" := AccessibilityData(85, 90, 95, true, true,
      ["Smooth paved path", "Well-lit 24/7", "EV chargers available"]),
    "medical_center" := AccessibilityData(95, 100, 100, true, true,
      ["Direct indoor access", "Hospital-grade lighting", "Multiple EV stations"]),
    "ohio_union_north" := AccessibilityData(70, 85, 80, false, false,
      ["Slight incline", "Good sidewalk condition"])
  ]

  const Default := AccessibilityData(75, 75, 75, false, false, ["Standard accessible parking"])

  /** Every figure of a record is a percentage. */
  predicate WellFormed(d: AccessibilityData) {
    0 <= d.distanceScore <= 100 && 0 <= d.pathQuality <= 100 && 0 <= d.lightingQuality <= 100
  }

  /** The record of a lot: its table entry, or the default one. */
  function Lookup(lotId: string): (r: AccessibilityData)
    ensures WellFormed(r)
    ensures r.notes != []
    ensures lotId in Table ==> r == Table[lotId]
    ensures lotId !in Table ==> r == Default
  {
    if lotId in Table then Table[lotId] else Default
  }

  function Flag(b: bool): int {
    if b then 100 else 0
  }

  /** Ten times the weighted sum 0.3 distance + 0.3 path + 0.2 lighting
      + 0.1 covered + 0.1 EV, kept exact. */
  function WeightedTimesTen(d: AccessibilityData): int {
    3 * d.distanceScore + 3 * d.pathQuality + 2 * d.lightingQuality
    + Flag(d.coveredParking) + Flag(d.evCharging)
  }

  /** `Math.round` of the weighted sum: the integer nearest to it, halves
      rounding up. */
  function OverallScore(d: AccessibilityData): (r: int)
    ensures 10 * r - 5 <= WeightedTimesTen(d) < 10 * r + 5
  {
    (WeightedTimesTen(d) + 5) / 10
  }

  /** The weights sum to one, so percentages give a percentage. */
  lemma ScoreIsPercentage(d: AccessibilityData)
    requires WellFormed(d)
    ensures 0 <= OverallScore(d) <= 100
  {
  }

  /** A record that is no worse in any respect never scores lower. */
  lemma ScoreMonotone(a: AccessibilityData, b: AccessibilityData)
    requires a.distanceScore <= b.distanceScore && a.pathQuality <= b.pathQuality
    requires a.lightingQuality <= b.lightingQuality
    requires a.coveredParking ==> b.coveredParking
    requires a.evCharging ==> b.evCharging
    ensures OverallScore(a) <= OverallScore(b)
  {
  }

  /** The scores the card shows for the three listed lots and for any other lot. */
  lemma KnownScores(unknown: string)
    requires unknown !in Table
    ensures OverallScore(Lookup("12th_avenue")) == 92
    ensures OverallScore(Lookup("medical_center")) == 99
    ensures OverallScore(Lookup("ohio_union_north")) == 63
    ensures OverallScore(Lookup(unknown)) == 60
  {
  }

  // ----- label and colour -----

  function ScoreLabel(score: int): string {
    if score >= 90 then "Excellent"
    else if score >= 75 then "Very Good"
    else if score >= 60 then "Good"
    else "Fair"
  }

  function ScoreColor(score: int): string {
    if score >= 90 then "text-green-600 bg-green-50 border-green-300"
    else if score >= 75 then "text-blue-600 bg-blue-50 border-blue-300"
    else if score >= 60 then "text-yellow-600 bg-yellow-50 border-yellow-300"
    else "text-orange-600 bg-orange-50 border-orange-300"
  }

  /** The order of the labels, best last. */
  function LabelRank(name: string): int {
    if name == "Fair" then 0
    else if name == "Good" then 1
    else if name == "Very Good" then 2
    else if name == "Excellent" then 3
    else -1
  }

  /** Label and colour use the same thresholds: two scores share a label exactly
      when they share a colour. */
  lemma LabelAgreesWithColor(s: int, t: int)
    ensures ScoreLabel(s) == ScoreLabel(t) <==> ScoreColor(s) == ScoreColor(t)
  {
  }

  /** A higher score never gets a lower label, and the labels have the documented
      lower bounds. */
  lemma LabelMonotone(s: int, t: int)
    requires s <= t
    ensures 0 <= LabelRank(ScoreLabel(s)) <= LabelRank(ScoreLabel(t))
    ensures ScoreLabel(s) == "Excellent" <==> s >= 90
    ensures LabelRank(ScoreLabel(s)) >= 2 <==> s >= 75
    ensures LabelRank(ScoreLabel(s)) >= 1 <==> s >= 60
  {
  }

  // ----- metric descriptions -----

  /** A three-way description by two thresholds. */
  function Describe(score: int, high: int, low: int, best: string, middle: string, worst: string): string {
    if score >= high then best else if score >= low then middle else worst
  }

  function DistanceDescription(d: AccessibilityData): string {
    Describe(d.distanceScore, 80, 60, "Very close", "Moderate distance", "Longer walk")
  }

  function PathDescription(d: AccessibilityData): string {
    Describe(d.pathQuality, 90, 70, "Smooth, obstacle-free", "Good condition", "Some obstacles")
  }

  function LightingDescription(d: AccessibilityData): string {
    Describe(d.lightingQuality, 90, 70, "Excellent visibility", "Well-lit", "Adequate lighting")
  }

  /** The position of a description in its metric's three-way split, best last. */
  function DescriptionRank(score: int, high: int, low: int): (r: int)
    requires low <= high
    ensures 0 <= r <= 2
    ensures r == 2 <==> score >= high
    ensures r == 0 <==> score < low
  {
    if score >= high then 2 else if score >= low then 1 else 0
  }

  /** Each metric's description is the one its split ranks for its score; with
      three different texts, a higher score never reads worse. */
  lemma DescriptionsFollowThresholds(a: AccessibilityData, b: AccessibilityData)
    requires a.distanceScore <= b.distanceScore
    ensures DistanceDescription(a) == "Very close" ==> DistanceDescription(b) == "Very close"
    ensures DistanceDescription(b) == "Longer walk" ==> DistanceDescription(a) == "Longer walk"
    ensures DistanceDescription(a) == "Very close" <==> DescriptionRank(a.distanceScore, 80, 60) == 2
    ensures DistanceDescription(a) == "Longer walk" <==> DescriptionRank(a.distanceScore, 80, 60) == 0
    ensures PathDescription(a) == "Smooth, obstacle-free" <==> DescriptionRank(a.pathQuality, 90, 70) == 2
    ensures PathDescription(a) == "Some obstacles" <==> DescriptionRank(a.pathQuality, 90, 70) == 0
    ensures LightingDescription(a) == "Excellent visibility" <==> DescriptionRank(a.lightingQuality, 90, 70) == 2
    ensures LightingDescription(a) == "Adequate lighting" <==> DescriptionRank(a.lightingQuality, 90, 70) == 0
  {
  }
}
