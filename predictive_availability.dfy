/** The typical-availability card: a per-lot demand pattern looked up with a
    default, and the peak-hour warning driven by the current hour alone. */
module PredictiveAvailability {
  import opened Clock

  datatype Trend = High | Medium | Low

  datatype Pattern = Pattern(peakHours: string, lowHours: string, trend: Trend)

  const Patterns: map<string, Pattern> := map[
    "12th_avenue" := Pattern("8-10 AM, 12-2 PM", "2-4 PM, 6-8 PM", High),
    "medical_center" := Pattern("7-11 AM", "3-6 PM", High),
    "ohio_union_north" := Pattern("11 AM - 2 PM", "Before 9 AM, After 5 PM", Medium)
  ]

  const DefaultPattern := Pattern("8-10 AM, 12-2 PM", "2-4 PM, After 6 PM", Medium)

  /** The pattern shown for a lot: its table entry, or the default one, whose
      trend is medium. */
  function PatternFor(lotId: string): (r: Pattern)
    ensures lotId in Patterns ==> r == Patterns[lotId]
    ensures lotId !in Patterns ==> r == DefaultPattern && r.trend == Medium
    ensures r.peakHours != [] && r.lowHours != []
  {
    if lotId in Patterns then Patterns[lotId] else DefaultPattern
  }

  /** Peak time: 8 to 10 o'clock or 12 to 14 o'clock, as the hour reads. */
  predicate IsPeakTime(hour: Hour) {
    (hour >= 8 && hour <= 10) || (hour >= 12 && hour <= 14)
  }

  /** The peak hours are exactly the six hours 8, 9, 10, 12, 13 and 14; the
      lunch hour 11 is not one of them. */
  lemma PeakHoursIff(hour: Hour)
    ensures IsPeakTime(hour) <==> hour in {8, 9, 10, 12, 13, 14}
  {
  }

  /** What the card renders: the lot's two pattern texts and whether the yellow
      peak-hours warning is shown. */
  datatype CardView = CardView(peakHours: string, lowHours: string, peakWarning: bool)

  /** The card for a lot at an hour: the texts come from the lot's pattern, the
      warning from the peak hours. */
  function Card(lotId: string, hour: Hour): (r: CardView)
    ensures r.peakHours == PatternFor(lotId).peakHours
    ensures r.lowHours == PatternFor(lotId).lowHours
    ensures r.peakWarning <==> hour in {8, 9, 10, 12, 13, 14}
  {
    PeakHoursIff(hour);
    var pattern := PatternFor(lotId);
    CardView(pattern.peakHours, pattern.lowHours, IsPeakTime(hour))
  }

  /** The warning depends on the hour only: two lots get it at the same hours,
      whatever their own patterns say, while each card's texts follow its own
      pattern; two lots whose peak texts differ still agree on the warning. */
  lemma WarningIgnoresLot(a: string, b: string, hour: Hour)
    ensures Card(a, hour).peakWarning == Card(b, hour).peakWarning
    ensures (Card(a, hour).peakHours == Card(b, hour).peakHours) <==>
            (PatternFor(a).peakHours == PatternFor(b).peakHours)
  {
  }

  /** The 12th Avenue and medical centre cards show different peak texts but the
      same warning at every hour. */
  lemma DifferentPeaksSameWarning(a: string, b: string, hour: Hour)
    requires a == "12th_avenue" && b == "medical_center"
    ensures Card(a, hour).peakHours != Card(b, hour).peakHours
    ensures Card(a, hour).peakWarning == Card(b, hour).peakWarning
  {
    WarningIgnoresLot(a, b, hour);
  }

  /** The medical centre's own pattern names 7 to 11 AM as its peak, yet at 7 and
      at 11 o'clock its card shows no warning. */
  lemma MedicalCenterPeakNotWarned(lotId: string)
    requires lotId == "medical_center"
    ensures PatternFor(lotId).peakHours == "7-11 AM"
    ensures !Card(lotId, 7).peakWarning && !Card(lotId, 11).peakWarning
  {
  }
}
