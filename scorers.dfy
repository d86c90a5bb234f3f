/** The leaf scorers of the engine. Each is a fixed piecewise function of one
    or two task fields and the injected clock; none can fail. */
module Scorers {
  import opened Common

  const SecondsPerHour := 3600
  const SecondsPerDay := 86400

  /** `timedelta.days` of a difference in seconds. Dafny's division with a
      positive divisor floors, as `timedelta` normalisation does. */
  function DaysOf(delta: int): int
  {
    delta / SecondsPerDay
  }

  // ---------------------------------------------------------------- urgency

  /** Urgency of a task due `delta` seconds from now (negative: overdue). */
  function UrgencyFromDelta(delta: int): (r: int)
    ensures 15 <= r <= 150
    ensures r > 100 <==> delta < 0
    ensures 0 <= delta <= 4 * SecondsPerHour ==> r == 100
  {
    var days := DaysOf(delta);
    if days < 0 then Min(100 + -days * 5, 150)
    else if delta <= 4 * SecondsPerHour then 100
    else if days == 0 then 95
    else if days == 1 then 85
    else if days <= 3 then 70
    else if days <= 7 then 50
    else if days <= 14 then 35
    else if days <= 30 then 25
    else 15
  }

  /** Urgency of an optional due date; a missing or unreadable one scores 20. */
  function UrgencyScore(due: Option<int>, now: int): (r: int)
    ensures due.None? ==> r == 20
    ensures due.Some? ==> r == UrgencyFromDelta(due.value - now)
    ensures 15 <= r <= 150
  {
    match due
    case None => 20
    case Some(d) => UrgencyFromDelta(d - now)
  }

  /** Whole or started days overdue: the ceiling of the overdue time in days. */
  function DaysOverdue(delta: int): int
  {
    (-delta + SecondsPerDay - 1) / SecondsPerDay
  }

  /** An overdue task scores 100 plus 5 per started day overdue, capped at 150. */
  lemma UrgencyOverdue(delta: int)
    requires delta < 0
    ensures 1 <= DaysOverdue(delta)
    ensures UrgencyFromDelta(delta) == Min(100 + 5 * DaysOverdue(delta), 150)
  {
    var k := DaysOverdue(delta);
    assert (k - 1) * SecondsPerDay < -delta <= k * SecondsPerDay;
    assert DaysOf(delta) == -k;
  }

  /** One more day overdue adds exactly 5, until the cap of 150. */
  lemma UrgencyOverdueStep(delta: int)
    requires delta < 0
    ensures UrgencyFromDelta(delta - SecondsPerDay) == Min(UrgencyFromDelta(delta) + 5, 150)
  {
    assert DaysOf(delta - SecondsPerDay) == DaysOf(delta) - 1;
  }

  /** A task due one hour ago is already a full day overdue. */
  lemma UrgencyOneHourLate()
    ensures UrgencyFromDelta(-SecondsPerHour) == 105
  {
    assert DaysOf(-SecondsPerHour) == -1;
  }

  /** The later a task is due, the lower (or equal) its urgency. */
  lemma UrgencyAntitone(d1: int, d2: int)
    requires d1 <= d2
    ensures UrgencyFromDelta(d1) >= UrgencyFromDelta(d2)
  {
    var k1, k2 := DaysOf(d1), DaysOf(d2);
    assert k1 * SecondsPerDay <= d1 < (k1 + 1) * SecondsPerDay;
    assert k2 * SecondsPerDay <= d2 < (k2 + 1) * SecondsPerDay;
    assert k1 <= k2;
  }

  // ------------------------------------------------------ importance, effort

  /** The importance term: the raw importance (3 when 0) on a 0-100 scale. */
  function ImportanceScore(importance: int): (r: int)
    ensures importance != 0 ==> r == importance * 20
    ensures 1 <= importance <= 5 ==> 20 <= r <= 100
    ensures importance == 0 ==> r == 60
  {
    OrDefault(importance, 3) * 20
  }

  /** WSJF effort tiers over the estimate in minutes (30 when 0). */
  function EffortScore(estimated: int): (r: int)
    ensures r in {100, 90, 70, 50, 30}
  {
    var mins := OrDefault(estimated, 30);
    if mins <= 15 then 100
    else if mins <= 30 then 90
    else if mins <= 60 then 70
    else if mins <= 120 then 50
    else 30
  }

  /** Shorter jobs never score lower, apart from the 0-means-30 default. */
  lemma EffortAntitone(a: int, b: int)
    requires a != 0 && b != 0 && a <= b
    ensures EffortScore(a) >= EffortScore(b)
  {
  }

  // ---------------------------------------------------------- energy bands

  /** Energy alignment: the if/elif chain over overlapping hour ranges; the
      first range that holds the hour decides. Its last branch is an
      unconditional else, so the chain has no fall-through case. */
  function EnergyAlignment(hour: Hour, category: string, estimated: int): (r: int)
    ensures 20 <= r <= 100
  {
    var mins := OrDefault(estimated, 30);
    if 9 <= hour <= 11 then
      if category in ["work", "learning", "finance"] then 100
      else if mins >= 60 then 90
      else 70
    else if 11 <= hour <= 13 then
      if category in ["work", "learning"] then 85 else 70
    else if 14 <= hour <= 16 then
      if mins <= 15 then 100
      else if mins <= 30 then 60
      else 30
    else if 16 <= hour <= 18 then
      if category in ["personal", "creative"] then 90
      else if mins <= 60 then 75
      else 50
    else if 18 <= hour <= 21 then
      if category in ["personal", "health"] then 85
      else if mins <= 30 then 70
      else 40
    else if hour >= 21 || hour <= 6 then
      if mins <= 15 && category == "personal" then 60 else 20
    else
      if category in ["health", "personal"] then 80
      else if mins <= 30 then 70
      else 50
  }

  /** The circadian bands, as the chain above actually assigns hours. */
  datatype Band = Peak | LateMorning | Trough | Recovery | Evening | Night | EarlyMorning

  /** Disjoint hour ranges: each hour belongs to exactly one band. */
  function BandOf(hour: Hour): Band
  {
    if 9 <= hour <= 11 then Peak
    else if 12 <= hour <= 13 then LateMorning
    else if 14 <= hour <= 16 then Trough
    else if 17 <= hour <= 18 then Recovery
    else if 19 <= hour <= 21 then Evening
    else if 7 <= hour <= 8 then EarlyMorning
    else Night
  }

  /** The rule each band applies to a task, independent of the hour. */
  function BandEnergy(band: Band, category: string, mins: int): int
  {
    match band
    case Peak => if category in ["work", "learning", "finance"] then 100 else if mins >= 60 then 90 else 70
    case LateMorning => if category in ["work", "learning"] then 85 else 70
    case Trough => if mins <= 15 then 100 else if mins <= 30 then 60 else 30
    case Recovery => if category in ["personal", "creative"] then 90 else if mins <= 60 then 75 else 50
    case Evening => if category in ["personal", "health"] then 85 else if mins <= 30 then 70 else 40
    case Night => if mins <= 15 && category == "personal" then 60 else 20
    case EarlyMorning => if category in ["health", "personal"] then 80 else if mins <= 30 then 70 else 50
  }

  /** The overlapping chain equals the band partition: an hour on the border
      of two ranges goes to the earlier one (11 peak, 13 late morning,
      16 trough, 18 recovery, 21 evening). */
  lemma EnergyFollowsBand(hour: Hour, category: string, estimated: int)
    ensures EnergyAlignment(hour, category, estimated)
         == BandEnergy(BandOf(hour), category, OrDefault(estimated, 30))
  {
  }

  /** The border hours score as the hour before them. */
  lemma BorderHours(category: string, estimated: int)
    ensures EnergyAlignment(11, category, estimated) == EnergyAlignment(10, category, estimated)
    ensures EnergyAlignment(16, category, estimated) == EnergyAlignment(15, category, estimated)
    ensures EnergyAlignment(18, category, estimated) == EnergyAlignment(17, category, estimated)
    ensures EnergyAlignment(21, category, estimated) == EnergyAlignment(20, category, estimated)
  {
  }

  // ---------------------------------------------------- time recommendation

  const PeakText := "Best: 9-11 AM (peak focus time)"
  const TroughText := "Best: 2-4 PM (trough - quick wins)"
  const EveningText := "Best: 6-9 PM (evening personal time)"
  const RecoveryText := "Best: 4-6 PM (recovery - creative work)"
  const MorningText := "Best: 9 AM - 1 PM (morning energy)"

  /** The recommended window: a function of category and estimate only. */
  function TimeRecommendation(category: string, estimated: int): (r: string)
    ensures r in {PeakText, TroughText, EveningText, RecoveryText, MorningText}
  {
    var mins := OrDefault(estimated, 30);
    if category in ["work", "learning", "finance"] && mins >= 60 then PeakText
    else if mins <= 15 then TroughText
    else if category in ["personal", "health"] then EveningText
    else if category == "creative" then RecoveryText
    else MorningText
  }

  /** The bands of `BandOf` that cover a recommendation text's window.
      For the recovery ("4-6 PM") and evening ("6-9 PM") texts these bands
      start one hour after the window the text names, because the chain
      gives hours 16 and 18 to the trough and recovery branches. */
  function BandsNamed(recommendation: string): set<Band>
  {
    if recommendation == PeakText then {Peak}
    else if recommendation == TroughText then {Trough}
    else if recommendation == EveningText then {Evening}
    else if recommendation == RecoveryText then {Recovery}
    else {Peak, LateMorning}
  }

  /** Working in one of the bands `BandsNamed` assigns to the recommendation
      always scores a good energy alignment (at least 70) for that task. */
  lemma RecommendedWindowAligned(hour: Hour, category: string, estimated: int)
    requires BandOf(hour) in BandsNamed(TimeRecommendation(category, estimated))
    ensures EnergyAlignment(hour, category, estimated) >= 70
  {
    EnergyFollowsBand(hour, category, estimated);
  }

  /** The whole hours of the clock window a recommendation text names. */
  function ClockWindow(recommendation: string): set<int>
  {
    if recommendation == PeakText then {9, 10}
    else if recommendation == TroughText then {14, 15}
    else if recommendation == EveningText then {18, 19, 20}
    else if recommendation == RecoveryText then {16, 17}
    else {9, 10, 11, 12}
  }

  /** Within the clock window the text names, the alignment is at least 70
      at every hour except the first hour of the recovery and evening
      windows. */
  lemma ClockWindowAligned(hour: Hour, category: string, estimated: int)
    requires hour in ClockWindow(TimeRecommendation(category, estimated))
    requires !(hour == 16 && TimeRecommendation(category, estimated) == RecoveryText)
    requires !(hour == 18 && TimeRecommendation(category, estimated) == EveningText)
    ensures EnergyAlignment(hour, category, estimated) >= 70
  {
  }

  /** At 6 PM, inside the "6-9 PM" window recommended to a 90-minute health
      task, the chain is still in its recovery branch and scores 50. */
  lemma EveningWindowFirstHour()
    ensures TimeRecommendation("health", 90) == EveningText
    ensures 18 in ClockWindow(EveningText)
    ensures EnergyAlignment(18, "health", 90) == 50
  {
  }

  /** At 4 PM, inside the "4-6 PM" window recommended to a 30-minute creative
      task, the chain is still in its trough branch and scores 60. */
  lemma RecoveryWindowFirstHour()
    ensures TimeRecommendation("creative", 30) == RecoveryText
    ensures 16 in ClockWindow(RecoveryText)
    ensures EnergyAlignment(16, "creative", 30) == 60
  {
  }

  // -------------------------------------------------------- category weight

  const CategoryWeights: map<string, real> := map[
    "health" := 2.0, "finance" := 1.8, "work" := 1.5,
    "learning" := 1.3, "personal" := 1.0, "general" := 1.0]

  /** The category multiplier; an unknown category (including "creative")
      weighs 1.0. Only health, finance and work reach the high-impact 1.5. */
  function CategoryWeight(category: string): (r: real)
    ensures 1.0 <= r <= 2.0
    ensures category !in CategoryWeights ==> r == 1.0
    ensures r >= 1.5 <==> category in {"health", "finance", "work"}
  {
    if category in CategoryWeights then CategoryWeights[category] else 1.0
  }

  // ----------------------------------------------------------------- aging

  /** Neglect penalty by whole days of age. */
  function AgePenaltyFromDays(ageDays: int): (r: int)
    ensures r in {0, 10, 20, 35, 50}
    ensures ageDays < 7 <==> r == 0
  {
    if ageDays >= 60 then 50
    else if ageDays >= 30 then 35
    else if ageDays >= 14 then 20
    else if ageDays >= 7 then 10
    else 0
  }

  /** Penalty of an optional creation time; missing or unreadable means 0. */
  function AgePenalty(created: Option<int>, now: int): (r: int)
    ensures created.None? ==> r == 0
    ensures r in {0, 10, 20, 35, 50}
  {
    match created
    case None => 0
    case Some(c) => AgePenaltyFromDays(DaysOf(now - c))
  }

  /** An older task is never penalised less than a newer one. */
  lemma AgePenaltyMonotone(c1: int, c2: int, now: int)
    requires c1 <= c2
    ensures AgePenalty(Some(c1), now) >= AgePenalty(Some(c2), now)
  {
    var k1, k2 := DaysOf(now - c1), DaysOf(now - c2);
    assert k1 * SecondsPerDay <= now - c1 < (k1 + 1) * SecondsPerDay;
    assert k2 * SecondsPerDay <= now - c2 < (k2 + 1) * SecondsPerDay;
    assert k2 <= k1;
  }
}
