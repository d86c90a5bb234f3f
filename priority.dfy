/** The master composer: a weighted sum of the leaf scores plus the keyword
    boost, scaled by the priority level, damped above 100 and capped at 120,
    together with the ordered list of reasons found on the way. */
module Priority {
  import opened Common
  import opened Scorers
  import opened Keywords

  const PriorityMultipliers: map<string, real> :=
    map["urgent" := 1.3, "high" := 1.15, "medium" := 1.0, "low" := 0.85]

  /** The priority-level multiplier; an unknown level is neutral. */
  function PriorityMultiplier(priority: string): (r: real)
    ensures 0.85 <= r <= 1.3
    ensures priority !in PriorityMultipliers ==> r == 1.0
  {
    if priority in PriorityMultipliers then PriorityMultipliers[priority] else 1.0
  }

  // ------------------------------------------------------------- the score

  /** The weighted sum of all factors, before the priority multiplier. */
  function WeightedSum(task: Task, clock: Clock): real
  {
    UrgencyScore(task.dueDate, clock.now) as real * 0.30
    + ImportanceScore(task.importance) as real * 0.25
    + EffortScore(task.estimatedTime) as real * 0.15
    + EnergyAlignment(clock.hour, task.category, task.estimatedTime) as real * 0.10
    + CategoryWeight(task.category) * 50.0 * 0.10
    + AgePenalty(task.createdAt, clock.now) as real * 0.05
    + KeywordBoost(task.text) as real
  }

  /** Diminishing returns above 100, then the hard cap at 120. */
  function Bounded(s: real): (r: real)
    ensures r <= 120.0
    ensures s <= 100.0 ==> r == s
    ensures 100.0 < s ==> 100.0 < r < s
    ensures r == 120.0 <==> s >= 500.0 / 3.0
  {
    var damped := if s > 100.0 then 100.0 + (s - 100.0) * 0.3 else s;
    if damped <= 120.0 then damped else 120.0
  }

  /** The priority multiplier, then diminishing returns and the cap. */
  function Shape(sum: real, priority: string): (r: real)
    ensures r <= 120.0
  {
    Bounded(sum * PriorityMultiplier(priority))
  }

  /** The final (unrounded) score of a task. */
  function MasterScore(task: Task, clock: Clock): (r: real)
    ensures r <= 120.0
  {
    Shape(WeightedSum(task, clock), task.priority)
  }

  /** `round(x, 2)` on the exact value: the nearest multiple of 0.01, an
      exact tie going to the even multiple. */
  function RoundCents(x: real): (r: real)
    ensures (r * 100.0).Floor as real == r * 100.0
    ensures -0.005 <= r - x <= 0.005
  {
    var n := (x * 100.0).Floor;
    var frac := x * 100.0 - n as real;
    var k := if frac > 0.5 || (frac == 0.5 && n % 2 != 0) then n + 1 else n;
    assert k as real - 0.5 <= x * 100.0 <= k as real + 0.5;
    assert k as real / 100.0 * 100.0 == k as real;
    k as real / 100.0
  }

  /** The score the engine reports: the final score rounded to cents. */
  function ReportedScore(task: Task, clock: Clock): real
  {
    RoundCents(MasterScore(task, clock))
  }

  /** Rounding never reverses the order of two scores. */
  lemma RoundCentsMonotone(x: real, y: real)
    requires x <= y
    ensures RoundCents(x) <= RoundCents(y)
  {
    var nx, ny := (x * 100.0).Floor, (y * 100.0).Floor;
    assert nx <= ny;
  }

  /** A whole number of cents is left as it is. */
  lemma RoundCentsExact(k: int)
    ensures RoundCents(k as real / 100.0) == k as real / 100.0
  {
    assert (k as real / 100.0 * 100.0).Floor == k;
  }

  /** A higher multiplied sum never gives a lower final score. */
  lemma BoundedMonotone(s1: real, s2: real)
    requires s1 <= s2
    ensures Bounded(s1) <= Bounded(s2)
  {
  }

  /** Shaping keeps a non-negative sum non-negative; above 100 after the
      multiplier, only 30% of the excess survives, and an unknown priority
      level leaves the sum as it is up to 100. */
  lemma ShapeProperties(sum: real, priority: string)
    ensures 0.0 <= sum ==> 0.0 <= Shape(sum, priority)
    ensures var s := sum * PriorityMultiplier(priority);
      s > 100.0 ==> Shape(sum, priority) == (if s <= 500.0 / 3.0 then 100.0 + (s - 100.0) * 0.3 else 120.0)
    ensures priority !in PriorityMultipliers && sum <= 100.0 ==> Shape(sum, priority) == sum
  {
  }

  /** For any non-negative importance (0 meaning unset), the weighted sum
      is at least 6: the keyword penalty cannot outweigh the floors of the
      other factors. */
  lemma WeightedSumLowerBound(task: Task, clock: Clock)
    requires 0 <= task.importance
    ensures 6.0 <= WeightedSum(task, clock)
  {
    KeywordBoostIsSubsetSum(task.text);
    assert 20 <= ImportanceScore(task.importance);
    assert 30 <= EffortScore(task.estimatedTime);
    assert 1.0 <= CategoryWeight(task.category);
  }

  /** For any non-negative importance (0 meaning unset), every score lies
      in [0, 120]. */
  lemma MasterScoreInRange(task: Task, clock: Clock)
    requires 0 <= task.importance
    ensures 0.0 <= MasterScore(task, clock) <= 120.0
    ensures 0.0 <= ReportedScore(task, clock) <= 120.0
  {
    WeightedSumLowerBound(task, clock);
    ShapeProperties(WeightedSum(task, clock), task.priority);
    var m := MasterScore(task, clock);
    RoundCentsMonotone(0.0, m);
    RoundCentsMonotone(m, 120.0);
    RoundCentsExact(0);
    RoundCentsExact(12000);
  }

  // ----------------------------------------------------------- the reasons

  function UrgencyReasons(urgency: int): seq<Reason>
  {
    if urgency >= 95 then [Overdue]
    else if urgency >= 85 then [DueToday]
    else if urgency >= 70 then [DueVerySoon]
    else []
  }

  function ImportanceReasons(importance: int): seq<Reason>
  {
    if importance >= 4 then [HighImportance(importance)] else []
  }

  /** Effort flags: a quick win, or for important long tasks a frog or an elephant. */
  function EffortReasons(task: Task): seq<Reason>
  {
    var mins := OrDefault(task.estimatedTime, 30);
    if mins <= 15 then [QuickWin]
    else if mins <= 60 then []
    else if task.importance < 4 then []
    else if mins <= 120 then [EatTheFrog]
    else [BreakItDown]
  }

  function CategoryReasons(category: string): seq<Reason>
  {
    if CategoryWeight(category) >= 1.5 then [HighImpactCategory(category)] else []
  }

  function AgingReasons(ageScore: int): seq<Reason>
  {
    if ageScore > 20 then [Aging] else []
  }

  /** The reasons in the order they are discovered. */
  function MasterReasons(task: Task, clock: Clock): seq<Reason>
  {
    UrgencyReasons(UrgencyScore(task.dueDate, clock.now))
    + ImportanceReasons(task.importance)
    + EffortReasons(task)
    + CategoryReasons(task.category)
    + AgingReasons(AgePenalty(task.createdAt, clock.now))
    + KeywordReasons(task.text)
  }

  /** At most eight reasons; the keyword reasons come last, and an urgency
      flag, when there is one, comes first. */
  lemma MasterReasonsShape(task: Task, clock: Clock)
    ensures |MasterReasons(task, clock)| <= 8
    ensures |KeywordReasons(task.text)| <= |MasterReasons(task, clock)|
    ensures MasterReasons(task, clock)[|MasterReasons(task, clock)| - |KeywordReasons(task.text)|..]
         == KeywordReasons(task.text)
    ensures UrgencyScore(task.dueDate, clock.now) >= 70 ==>
      MasterReasons(task, clock)[0] in {Overdue, DueToday, DueVerySoon}
  {
    var u := UrgencyReasons(UrgencyScore(task.dueDate, clock.now));
    var front := u + ImportanceReasons(task.importance) + EffortReasons(task)
      + CategoryReasons(task.category) + AgingReasons(AgePenalty(task.createdAt, clock.now));
    var k := KeywordReasons(task.text);
    KeywordReasonCount(task.text);
    assert |front| <= 5;
    assert MasterReasons(task, clock) == front + k;
    assert (front + k)[|front|..] == k;
    if u != [] {
      assert front[0] == u[0];
    }
  }

  /** The "OVERDUE" flag is raised at urgency 95 and above, which also takes
      in tasks due within the next 24 hours, not only overdue ones. */
  lemma OverdueFlagWithinADay(task: Task, clock: Clock)
    requires task.dueDate == Some(clock.now + SecondsPerHour)
    ensures MasterReasons(task, clock)[0] == Overdue
  {
  }

  // ----------------------------------------------------------- the methods

  /** The effort block: the WSJF tier of the estimate, flagging quick wins
      and, for important long tasks, frogs and elephants. */
  method EffortFactor(task: Task) returns (effort: int, flags: seq<Reason>)
    ensures effort == EffortScore(task.estimatedTime)
    ensures flags == EffortReasons(task)
  {
    flags := [];
    var mins := OrDefault(task.estimatedTime, 30);
    if mins <= 15 {
      effort := 100;
      flags := flags + [QuickWin];
    } else if mins <= 30 {
      effort := 90;
    } else if mins <= 60 {
      effort := 70;
    } else if mins <= 120 {
      effort := 50;
      if task.importance >= 4 {
        flags := flags + [EatTheFrog];
      }
    } else {
      effort := 30;
      if task.importance >= 4 {
        flags := flags + [BreakItDown];
      }
    }
  }

  /** The factor blocks of `calculate_master_priority`: six weighted terms
      and the keyword boost added to a running score, each block appending
      its reasons as it finds them. */
  method AccumulateFactors(task: Task, clock: Clock)
    returns (score: real, reasons: seq<Reason>, recommendation: string)
    ensures score == WeightedSum(task, clock)
    ensures reasons == MasterReasons(task, clock)
    ensures recommendation == TimeRecommendation(task.category, task.estimatedTime)
  {
    score := 0.0;
    reasons := [];

    var urgency := UrgencyScore(task.dueDate, clock.now);
    score := score + urgency as real * 0.30;
    if urgency >= 95 {
      reasons := reasons + [Overdue];
    } else if urgency >= 85 {
      reasons := reasons + [DueToday];
    } else if urgency >= 70 {
      reasons := reasons + [DueVerySoon];
    }
    assert reasons == UrgencyReasons(urgency);

    ghost var before := reasons;
    var importanceScore := OrDefault(task.importance, 3) * 20;
    score := score + importanceScore as real * 0.25;
    if task.importance >= 4 {
      reasons := reasons + [HighImportance(task.importance)];
    }
    assert reasons == before + ImportanceReasons(task.importance);

    var effort, effortFlags := EffortFactor(task);
    score := score + effort as real * 0.15;
    reasons := reasons + effortFlags;

    var energy := EnergyAlignment(clock.hour, task.category, task.estimatedTime);
    score := score + energy as real * 0.10;
    recommendation := TimeRecommendation(task.category, task.estimatedTime);

    before := reasons;
    var weight := CategoryWeight(task.category);
    score := score + weight * 50.0 * 0.10;
    if weight >= 1.5 {
      reasons := reasons + [HighImpactCategory(task.category)];
    }
    assert reasons == before + CategoryReasons(task.category);

    before := reasons;
    var age := AgePenalty(task.createdAt, clock.now);
    score := score + age as real * 0.05;
    if age > 20 {
      reasons := reasons + [Aging];
    }
    assert reasons == before + AgingReasons(age);

    var boost, keywordReasons := AnalyzeKeywords(task.text);
    score := score + boost as real;
    reasons := reasons + keywordReasons;
  }

  /** The closing blocks of `calculate_master_priority`: the priority-level
      multiplier, diminishing returns above 100, and the cap at 120. */
  method ApplyPriority(sum: real, priority: string) returns (score: real)
    ensures score == Shape(sum, priority)
    ensures score <= 120.0
  {
    score := sum;
    score := score * PriorityMultiplier(priority);
    if score > 100.0 {
      score := 100.0 + (score - 100.0) * 0.3;
    }
    if score > 120.0 {
      score := 120.0;
    }
  }

  /** `calculate_master_priority`: the factor blocks, the shaping, and the
      score rounded to cents. */
  method CalculateMasterPriority(task: Task, clock: Clock)
    returns (score: real, reasons: seq<Reason>, recommendation: string)
    ensures score == ReportedScore(task, clock)
    ensures reasons == MasterReasons(task, clock)
    ensures recommendation == TimeRecommendation(task.category, task.estimatedTime)
  {
    var sum;
    sum, reasons, recommendation := AccumulateFactors(task, clock);
    score := ApplyPriority(sum, task.priority);
    score := RoundCents(score);
  }
}
