/** The daily plan builder: every task is scored, the scored entries are
    ranked by score (highest first, ties in input order), the first two
    two-minute tasks are tagged "do now", and three bounded buckets are
    filled from the ranking without sharing an entry. */
module Plan {
  import opened Common
  import opened Scorers
  import opened Priority

  /** One scored entry. `index` is the task's position in the input, which
      keeps two entries apart even when their tasks are equal. */
  datatype ScoredTask = ScoredTask(
    index: nat,
    task: Task,
    score: real,
    reasons: seq<Reason>,
    recommendation: string)

  datatype DailyPlan = DailyPlan(
    morningFocus: seq<ScoredTask>,
    quickWins: seq<ScoredTask>,
    afternoon: seq<ScoredTask>,
    totalTime: int)

  // --------------------------------------------------------------- scoring

  /** The entry built for the task at position `i`. */
  function ScoreTask(i: nat, task: Task, clock: Clock): ScoredTask
  {
    ScoredTask(i, task, ReportedScore(task, clock), MasterReasons(task, clock),
               TimeRecommendation(task.category, task.estimatedTime))
  }

  function ScoreAll(tasks: seq<Task>, clock: Clock): seq<ScoredTask>
  {
    seq(|tasks|, i requires 0 <= i < |tasks| => ScoreTask(i, tasks[i], clock))
  }

  // --------------------------------------------------------------- ranking

  /** `a` is ranked before `b`: a higher score, or the same score and an
      earlier input position (the sort is stable). */
  predicate RanksBefore(a: ScoredTask, b: ScoredTask)
  {
    a.score > b.score || (a.score == b.score && a.index < b.index)
  }

  predicate Ranked(s: seq<ScoredTask>)
  {
    forall i, j :: 0 <= i < j < |s| ==> RanksBefore(s[i], s[j])
  }

  predicate InInputOrder(s: seq<ScoredTask>)
  {
    forall i, j :: 0 <= i < j < |s| ==> s[i].index < s[j].index
  }

  /** Inserts `x` before the first entry it does not score below. */
  function Insert(x: ScoredTask, s: seq<ScoredTask>): (r: seq<ScoredTask>)
    ensures |r| == |s| + 1
    ensures multiset(r) == multiset(s) + multiset{x}
  {
    if s == [] || x.score >= s[0].score then [x] + s
    else
      assert s == [s[0]] + s[1..];
      [s[0]] + Insert(x, s[1..])
  }

  /** The descending stable sort, by insertion from the back. */
  function SortByScore(s: seq<ScoredTask>): (r: seq<ScoredTask>)
    ensures |r| == |s|
    ensures multiset(r) == multiset(s)
  {
    if s == [] then []
    else
      assert s == [s[0]] + s[1..];
      Insert(s[0], SortByScore(s[1..]))
  }

  lemma {:induction false} InsertRanked(x: ScoredTask, s: seq<ScoredTask>)
    requires Ranked(s)
    requires forall y :: y in s ==> x.index < y.index
    ensures Ranked(Insert(x, s))
  {
    if s != [] && x.score < s[0].score {
      InsertRanked(x, s[1..]);
      var rest := Insert(x, s[1..]);
      forall z | z in rest
        ensures RanksBefore(s[0], z)
      {
        assert z in multiset(rest);
        if z != x {
          assert z in s[1..];
        }
      }
    }
  }

  /** Sorting entries given in input order yields a ranking: scores never
      increase along it, and equal scores keep their input order. */
  lemma {:induction false} SortByScoreRanked(s: seq<ScoredTask>)
    requires InInputOrder(s)
    ensures Ranked(SortByScore(s))
  {
    if s != [] {
      SortByScoreRanked(s[1..]);
      var rest := SortByScore(s[1..]);
      forall y | y in rest
        ensures s[0].index < y.index
      {
        assert y in multiset(s[1..]);
        assert y in s[1..];
      }
      InsertRanked(s[0], rest);
    }
  }

  lemma ScoreAllInInputOrder(tasks: seq<Task>, clock: Clock)
    ensures InInputOrder(ScoreAll(tasks, clock))
  {
  }

  // ------------------------------------------------------ two-minute rule

  predicate IsTwoMinute(st: ScoredTask)
  {
    st.task.estimatedTime <= 2
  }

  /** How many entries of `s` are two-minute tasks. */
  function TwoMinuteCount(s: seq<ScoredTask>): nat
  {
    if s == [] then 0
    else TwoMinuteCount(s[..|s| - 1]) + (if IsTwoMinute(s[|s| - 1]) then 1 else 0)
  }

  /** The entry at `i` is one of the first two two-minute tasks. */
  predicate TaggedAt(s: seq<ScoredTask>, i: int)
    requires 0 <= i < |s|
  {
    IsTwoMinute(s[i]) && TwoMinuteCount(s[..i]) < 2
  }

  function Tag(st: ScoredTask): ScoredTask
  {
    st.(reasons := [DoNow] + st.reasons)
  }

  /** The ranking after the two-minute rule: only reasons change. */
  function TagTwoMinute(s: seq<ScoredTask>): (r: seq<ScoredTask>)
    ensures |r| == |s|
    ensures forall i :: 0 <= i < |s| ==>
      r[i].index == s[i].index && r[i].task == s[i].task && r[i].score == s[i].score
      && r[i].recommendation == s[i].recommendation
    ensures forall i :: 0 <= i < |s| ==>
      r[i].reasons == (if TaggedAt(s, i) then [DoNow] + s[i].reasons else s[i].reasons)
  {
    seq(|s|, i requires 0 <= i < |s| => if TaggedAt(s, i) then Tag(s[i]) else s[i])
  }

  lemma {:induction false} TwoMinuteCountMonotone(s: seq<ScoredTask>, a: nat, b: nat)
    requires a <= b <= |s|
    ensures TwoMinuteCount(s[..a]) <= TwoMinuteCount(s[..b])
    decreases b - a
  {
    if a < b {
      TwoMinuteCountMonotone(s, a, b - 1);
      assert s[..b][..b - 1] == s[..b - 1];
    }
  }

  lemma TwoMinuteCountStep(s: seq<ScoredTask>, i: nat)
    requires i < |s|
    ensures TwoMinuteCount(s[..i + 1]) == TwoMinuteCount(s[..i]) + (if IsTwoMinute(s[i]) then 1 else 0)
  {
    assert s[..i + 1][..i] == s[..i];
  }

  /** No more than two entries are tagged. */
  lemma AtMostTwoTagged(s: seq<ScoredTask>, i: int, j: int, k: int)
    requires 0 <= i < j < k < |s|
    requires TaggedAt(s, i) && TaggedAt(s, j)
    ensures !TaggedAt(s, k)
  {
    TwoMinuteCountStep(s, i);
    TwoMinuteCountMonotone(s, i + 1, j);
    TwoMinuteCountStep(s, j);
    TwoMinuteCountMonotone(s, j + 1, k);
  }

  lemma {:induction false} NoTwoMinuteBefore(s: seq<ScoredTask>, j: nat)
    requires j <= |s|
    requires forall i :: 0 <= i < j ==> !IsTwoMinute(s[i])
    ensures TwoMinuteCount(s[..j]) == 0
  {
    if j > 0 {
      NoTwoMinuteBefore(s, j - 1);
      TwoMinuteCountStep(s, j - 1);
    }
  }

  /** The first two two-minute tasks in ranking order are tagged. */
  lemma FirstTwoTagged(s: seq<ScoredTask>, i: int, j: int)
    requires 0 <= i < j < |s| && IsTwoMinute(s[i]) && IsTwoMinute(s[j])
    requires forall k :: 0 <= k < j && k != i ==> !IsTwoMinute(s[k])
    ensures TaggedAt(s, i) && TaggedAt(s, j)
  {
    NoTwoMinuteBefore(s, i);
    TwoMinuteCountStep(s, i);
    var n := i + 1;
    while n < j
      invariant i + 1 <= n <= j
      invariant TwoMinuteCount(s[..n]) == 1
    {
      TwoMinuteCountStep(s, n);
      n := n + 1;
    }
  }

  /** The rule as the engine applies it: one pass over the ranking, tagging
      each two-minute task while fewer than two have been seen. */
  method ApplyTwoMinuteRule(ranked: seq<ScoredTask>) returns (tagged: seq<ScoredTask>)
    ensures tagged == TagTwoMinute(ranked)
  {
    tagged := ranked;
    var seen := 0;
    for i := 0 to |ranked|
      invariant |tagged| == |ranked|
      invariant seen == TwoMinuteCount(ranked[..i])
      invariant forall j :: 0 <= j < i ==> tagged[j] == TagTwoMinute(ranked)[j]
      invariant forall j :: i <= j < |ranked| ==> tagged[j] == ranked[j]
    {
      TwoMinuteCountStep(ranked, i);
      if IsTwoMinute(ranked[i]) {
        if seen < 2 {
          tagged := tagged[i := Tag(tagged[i])];
        }
        seen := seen + 1;
      }
    }
  }

  /** Tagging keeps a ranking a ranking. */
  lemma TagKeepsRanking(s: seq<ScoredTask>)
    requires Ranked(s)
    ensures Ranked(TagTwoMinute(s))
  {
    var r := TagTwoMinute(s);
    forall i, j | 0 <= i < j < |r|
      ensures RanksBefore(r[i], r[j])
    {
      assert RanksBefore(s[i], s[j]);
    }
  }

  /** The full ranking the plan is built from. */
  function Ranking(tasks: seq<Task>, clock: Clock): seq<ScoredTask>
  {
    TagTwoMinute(SortByScore(ScoreAll(tasks, clock)))
  }

  /** The ranking holds every task's entry once, as the composer scored it
      (up to the two-minute tag), in descending stable order. */
  lemma RankingCorrect(tasks: seq<Task>, clock: Clock)
    ensures |Ranking(tasks, clock)| == |tasks|
    ensures Ranked(Ranking(tasks, clock))
    ensures multiset(SortByScore(ScoreAll(tasks, clock))) == multiset(ScoreAll(tasks, clock))
    ensures forall k :: 0 <= k < |tasks| ==>
      var st := SortByScore(ScoreAll(tasks, clock))[k];
      st.index < |tasks| && st == ScoreTask(st.index, tasks[st.index], clock)
  {
    var scored := ScoreAll(tasks, clock);
    var sorted := SortByScore(scored);
    ScoreAllInInputOrder(tasks, clock);
    SortByScoreRanked(scored);
    TagKeepsRanking(sorted);
    forall k | 0 <= k < |tasks|
      ensures sorted[k].index < |tasks| && sorted[k] == ScoreTask(sorted[k].index, tasks[sorted[k].index], clock)
    {
      assert sorted[k] in multiset(scored);
      var j :| 0 <= j < |scored| && scored[j] == sorted[k];
    }
  }

  // --------------------------------------------------------------- buckets

  datatype Bucket = MorningFocus | QuickWins | Afternoon

  /** Which entries a bucket admits, by the raw estimate (and, for the
      morning focus, the score). */
  predicate Qualifies(bucket: Bucket, st: ScoredTask)
  {
    match bucket
    case MorningFocus => st.task.estimatedTime >= 60 && st.score >= 70.0
    case QuickWins => 10 <= st.task.estimatedTime <= 30
    case Afternoon => st.task.estimatedTime > 30
  }

  /** The entries of `s`, in order, that the bucket admits and that are not
      already placed. */
  function Select(s: seq<ScoredTask>, bucket: Bucket, placed: seq<ScoredTask>): (r: seq<ScoredTask>)
    ensures |r| <= |s|
    ensures forall x :: x in r <==> x in s && Qualifies(bucket, x) && x !in placed
  {
    if s == [] then []
    else if Qualifies(bucket, s[0]) && s[0] !in placed then [s[0]] + Select(s[1..], bucket, placed)
    else Select(s[1..], bucket, placed)
  }

  /** The first `n` entries, or all of them when there are fewer. */
  function Take(s: seq<ScoredTask>, n: nat): (r: seq<ScoredTask>)
    ensures |r| == Min(n, |s|)
    ensures r == s[..|r|]
    ensures forall x :: x in r ==> x in s
  {
    if |s| <= n then s else s[..n]
  }

  function SumMinutes(s: seq<ScoredTask>): int
  {
    if s == [] then 0 else s[0].task.estimatedTime + SumMinutes(s[1..])
  }

  lemma {:induction false} SumMinutesAppend(a: seq<ScoredTask>, b: seq<ScoredTask>)
    ensures SumMinutes(a + b) == SumMinutes(a) + SumMinutes(b)
  {
    if a != [] {
      assert (a + b)[0] == a[0];
      assert (a + b)[1..] == a[1..] + b;
      SumMinutesAppend(a[1..], b);
    } else {
      assert a + b == b;
    }
  }

  /** The plan drawn from a ranking: the first qualifying frog, then up to
      three quick wins and up to two afternoon tasks not placed before. */
  function BuildPlan(ranked: seq<ScoredTask>): (p: DailyPlan)
    ensures |p.morningFocus| <= 1 && |p.quickWins| <= 3 && |p.afternoon| <= 2
    ensures forall x :: x in p.morningFocus ==> x in ranked && Qualifies(MorningFocus, x)
    ensures forall x :: x in p.quickWins ==> x in ranked && Qualifies(QuickWins, x)
    ensures forall x :: x in p.afternoon ==> x in ranked && Qualifies(Afternoon, x)
    ensures forall x :: x in p.quickWins ==> x !in p.morningFocus
    ensures forall x :: x in p.afternoon ==> x !in p.morningFocus && x !in p.quickWins
    ensures p.totalTime == SumMinutes(p.morningFocus + p.quickWins + p.afternoon)
  {
    var focus := Take(Select(ranked, MorningFocus, []), 1);
    var quick := Take(Select(ranked, QuickWins, focus), 3);
    var afternoon := Take(Select(ranked, Afternoon, focus + quick), 2);
    SumMinutesAppend(focus, quick);
    SumMinutesAppend(focus + quick, afternoon);
    DailyPlan(focus, quick, afternoon, SumMinutes(focus) + SumMinutes(quick) + SumMinutes(afternoon))
  }

  lemma {:induction false} SelectRanked(s: seq<ScoredTask>, bucket: Bucket, placed: seq<ScoredTask>)
    requires Ranked(s)
    ensures Ranked(Select(s, bucket, placed))
  {
    if s != [] {
      SelectRanked(s[1..], bucket, placed);
      var rest := Select(s[1..], bucket, placed);
      forall y | y in rest
        ensures RanksBefore(s[0], y)
      {
        assert y in s[1..];
      }
    }
  }

  /** A slice of a ranking is a ranking. */
  lemma TakeRanked(s: seq<ScoredTask>, n: nat)
    requires Ranked(s)
    ensures Ranked(Take(s, n))
  {
  }

  /** Every bucket keeps the ranking order of the entries it takes. */
  lemma BucketsRanked(ranked: seq<ScoredTask>)
    requires Ranked(ranked)
    ensures Ranked(BuildPlan(ranked).morningFocus)
    ensures Ranked(BuildPlan(ranked).quickWins)
    ensures Ranked(BuildPlan(ranked).afternoon)
  {
    var focus := BuildPlan(ranked).morningFocus;
    var quick := BuildPlan(ranked).quickWins;
    SelectRanked(ranked, MorningFocus, []);
    SelectRanked(ranked, QuickWins, focus);
    SelectRanked(ranked, Afternoon, focus + quick);
    TakeRanked(Select(ranked, MorningFocus, []), 1);
    TakeRanked(Select(ranked, QuickWins, focus), 3);
    TakeRanked(Select(ranked, Afternoon, focus + quick), 2);
  }

  /** A bucket filled from a ranking takes the best candidates: whenever a
      candidate is left out, the bucket is full and everything in it ranks
      before that candidate. */
  lemma BucketTakesBest(s: seq<ScoredTask>, bucket: Bucket, placed: seq<ScoredTask>, n: nat,
                        x: ScoredTask, y: ScoredTask)
    requires Ranked(s)
    requires x in Take(Select(s, bucket, placed), n)
    requires y in s && Qualifies(bucket, y) && y !in placed
    requires y !in Take(Select(s, bucket, placed), n)
    ensures |Take(Select(s, bucket, placed), n)| == n
    ensures RanksBefore(x, y)
  {
    var c := Select(s, bucket, placed);
    SelectRanked(s, bucket, placed);
    assert y in c;
    var i :| 0 <= i < |c| && c[i] == y;
    var j :| 0 <= j < n && j < |c| && c[j] == x;
    assert n < |c|;
    assert j < i;
  }

  /** The morning focus is empty exactly when no entry qualifies; otherwise
      it holds the best-ranked qualifying entry. */
  lemma MorningFocusIsBestFrog(ranked: seq<ScoredTask>)
    requires Ranked(ranked)
    ensures BuildPlan(ranked).morningFocus == [] <==>
      forall y :: y in ranked ==> !Qualifies(MorningFocus, y)
    ensures BuildPlan(ranked).morningFocus != [] ==>
      forall y :: y in ranked && Qualifies(MorningFocus, y) && y != BuildPlan(ranked).morningFocus[0] ==>
        RanksBefore(BuildPlan(ranked).morningFocus[0], y)
  {
    var c := Select(ranked, MorningFocus, []);
    var focus := BuildPlan(ranked).morningFocus;
    if focus != [] {
      forall y | y in ranked && Qualifies(MorningFocus, y) && y != focus[0]
        ensures RanksBefore(focus[0], y)
      {
        BucketTakesBest(ranked, MorningFocus, [], 1, focus[0], y);
      }
      assert focus[0] in c;
    } else {
      assert c == [];
    }
  }

  // ----------------------------------------------------------- the methods

  /** The entries scored so far, one more entry appended, are the longer prefix. */
  lemma ScoredPrefixGrows(tasks: seq<Task>, clock: Clock, scored: seq<ScoredTask>, entry: ScoredTask)
    requires |scored| < |tasks|
    requires forall j :: 0 <= j < |scored| ==> scored[j] == ScoreTask(j, tasks[j], clock)
    requires entry == ScoreTask(|scored|, tasks[|scored|], clock)
    ensures forall j :: 0 <= j <= |scored| ==> (scored + [entry])[j] == ScoreTask(j, tasks[j], clock)
  {
  }

  /** The scoring loop: one composer call per task, in input order. */
  method ScoreTasks(tasks: seq<Task>, clock: Clock) returns (scored: seq<ScoredTask>)
    ensures scored == ScoreAll(tasks, clock)
  {
    scored := [];
    for i := 0 to |tasks|
      invariant |scored| == i
      invariant forall j :: 0 <= j < i ==> scored[j] == ScoreTask(j, tasks[j], clock)
    {
      var score, reasons, recommendation := CalculateMasterPriority(tasks[i], clock);
      var entry := ScoredTask(i, tasks[i], score, reasons, recommendation);
      assert entry == ScoreTask(i, tasks[i], clock);
      ScoredPrefixGrows(tasks, clock, scored, entry);
      scored := scored + [entry];
    }
  }

  /** The bucket blocks: the first frog, then the quick wins and the
      afternoon tasks, each adding its minutes to the running total. */
  method FillBuckets(ranked: seq<ScoredTask>) returns (plan: DailyPlan)
    ensures plan == BuildPlan(ranked)
  {
    var morningFocus: seq<ScoredTask> := [];
    var totalTime := 0;
    var frogs := Select(ranked, MorningFocus, []);
    if |frogs| > 0 {
      morningFocus := morningFocus + [frogs[0]];
      totalTime := totalTime + frogs[0].task.estimatedTime;
    }
    assert morningFocus == Take(frogs, 1);
    assert totalTime == SumMinutes(morningFocus) by {
      if |frogs| > 0 {
        assert morningFocus[1..] == [];
      }
    }

    var quickWins := Take(Select(ranked, QuickWins, morningFocus), 3);
    totalTime := totalTime + SumMinutes(quickWins);

    var afternoon := Take(Select(ranked, Afternoon, morningFocus + quickWins), 2);
    totalTime := totalTime + SumMinutes(afternoon);

    plan := DailyPlan(morningFocus, quickWins, afternoon, totalTime);
  }

  /** `create_daily_plan`: scores every task, sorts, applies the two-minute
      rule, fills the buckets while adding up their minutes, and returns the
      plan with the first `maxTasks` ranked entries (a negative `maxTasks`
      drops that many from the end, as a slice does). */
  method CreateDailyPlan(tasks: seq<Task>, maxTasks: int, clock: Clock)
    returns (plan: DailyPlan, top: seq<ScoredTask>)
    ensures plan == BuildPlan(Ranking(tasks, clock))
    ensures 0 <= maxTasks ==> top == Ranking(tasks, clock)[..Min(maxTasks, |tasks|)]
    ensures maxTasks < 0 ==> top == Ranking(tasks, clock)[..if |tasks| + maxTasks < 0 then 0 else |tasks| + maxTasks]
    ensures |plan.morningFocus| <= 1 && |plan.quickWins| <= 3 && |plan.afternoon| <= 2
  {
    var scored := ScoreTasks(tasks, clock);
    var ranked := SortByScore(scored);
    ranked := ApplyTwoMinuteRule(ranked);

    plan := FillBuckets(ranked);
    if 0 <= maxTasks {
      top := ranked[..Min(maxTasks, |ranked|)];
    } else {
      top := ranked[..if |ranked| + maxTasks < 0 then 0 else |ranked| + maxTasks];
    }
  }
}
