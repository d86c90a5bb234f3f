# Task-Buddy prioritisation engine in Dafny

This project models the task-prioritisation engine of Task-Buddy (`priority_algorithm.py`) and proves properties of it.

For one task, the engine computes a weighted sum of six factor scores plus a keyword boost:

- urgency from the due date;
- importance;
- WSJF effort tiers;
- circadian energy alignment at the current hour;
- category weight;
- an aging penalty.

It then scales the sum by the priority level, damps the part above 100 to 30 %, caps it at 120 and rounds it to cents. Along the way it collects a list of human-readable reasons and recommends a time window.

For a list of tasks, `create_daily_plan` does the following:

- scores every task;
- sorts the entries by score, highest first (a stable sort);
- tags the first two entries estimated at two minutes or less with a "do now" reason;
- fills three buckets from the ranking, with no entry shared between buckets:
  - one "frog" for the morning;
  - up to three quick wins;
  - up to two afternoon tasks;
- adds up their minutes;
- returns the plan together with the first `max_tasks` ranked entries.

The modules follow the source:

- `common.dfy`:
  - the task record;
  - the injected clock;
  - the reasons, which render to the engine's exact texts;
  - `or` defaults;
  - ASCII `lower()` and substring `in`.
- `scorers.dfy`: the leaf scorers (urgency, importance, effort, energy, time recommendation, category weight, aging).
- `keywords.dfy`: `analyze_keywords`.
- `priority.dfy`: `calculate_master_priority`.
- `plan.dfy`: `create_daily_plan`.

Scores are exact reals and timestamps are whole seconds. Each scoring pass is computed against one `Clock`. It holds the current instant (seconds on the local naive clock) and the local hour of day. The hour is an independent input, because the local time zone that would derive it from the instant is not modelled.

## Model

| member | source | states |
|---|---|---|
| Common.NatToString | priority_algorithm.py:50 | the importance is written in the reason as decimal digits without a leading zero, and those digits denote the importance |
| Common.Lower | priority_algorithm.py:282 | lower-casing keeps the length and maps every ASCII capital to its small letter, leaving other characters alone |
| Scorers.UrgencyFromDelta | priority_algorithm.py:129-159 | urgency lies in [15, 150]; it exceeds 100 exactly when the due time has passed; anything due within the next 4 hours scores 100 |
| Scorers.UrgencyScore | priority_algorithm.py:121-162 | a missing or unreadable due date scores 20; otherwise the score is the urgency of the time left, within [15, 150] |
| Scorers.UrgencyOverdue | priority_algorithm.py:132-135 | an overdue task scores 100 plus 5 per started day overdue (at least one), capped at 150 |
| Scorers.UrgencyOverdueStep | priority_algorithm.py:132-135 | each further day overdue adds exactly 5 until the cap of 150 |
| Scorers.UrgencyOneHourLate | priority_algorithm.py:129-135 | a task due one hour ago already counts as one full day overdue (105), because `timedelta.days` floors |
| Scorers.UrgencyAntitone | priority_algorithm.py:129-159 | a later due time never gives a higher urgency |
| Scorers.ImportanceScore | priority_algorithm.py:46 | a non-zero importance n scores 20·n, so 1..5 map to 20..100; the unset value 0 counts as 3 (60) |
| Scorers.EffortScore | priority_algorithm.py:55-73 | the effort score is one of the five WSJF tiers 100, 90, 70, 50, 30 |
| Scorers.EffortAntitone | priority_algorithm.py:57-71 | a shorter (non-zero) estimate never scores lower than a longer one |
| Scorers.EnergyAlignment | priority_algorithm.py:165-233 | energy alignment lies in [20, 100] for every hour, category and estimate |
| Scorers.EnergyFollowsBand | priority_algorithm.py:174-231 | the chain of overlapping hour ranges equals a partition of the day into seven disjoint bands, where a border hour belongs to the earlier band |
| Scorers.BorderHours | priority_algorithm.py:175-218 | hours 11, 16, 18 and 21 score like 10, 15, 17 and 20, since the earlier range catches them first |
| Scorers.TimeRecommendation | priority_algorithm.py:236-254 | the recommendation is one of the five fixed window texts |
| Scorers.RecommendedWindowAligned | priority_algorithm.py:174-254 | during the bands that the chain assigns to the recommendation's window, the same task's energy alignment is at least 70; for the "4-6 PM" and "6-9 PM" texts these bands start one hour after the named window |
| Scorers.ClockWindowAligned | priority_algorithm.py:174-254 | within the clock window a recommendation text names, the task's alignment is at least 70 at every hour except 4 PM for "4-6 PM" and 6 PM for "6-9 PM" |
| Scorers.EveningWindowFirstHour | priority_algorithm.py:200-206 | at 6 PM, inside the "6-9 PM" window recommended to a 90-minute health task, the recovery branch scores that task 50 |
| Scorers.RecoveryWindowFirstHour | priority_algorithm.py:191-197 | at 4 PM, inside the "4-6 PM" window recommended to a 30-minute creative task, the trough branch scores that task 60 |
| Scorers.CategoryWeight | priority_algorithm.py:8-16 | weights lie in [1.0, 2.0]; an unknown category weighs 1.0; only health, finance and work reach the high-impact 1.5 |
| Scorers.AgePenaltyFromDays | priority_algorithm.py:264-275 | the penalty is 0, 10, 20, 35 or 50, and it is 0 exactly below 7 days |
| Scorers.AgePenalty | priority_algorithm.py:257-277 | a missing or unreadable creation time gives no penalty; otherwise the penalty is one of the five steps |
| Scorers.AgePenaltyMonotone | priority_algorithm.py:264-275 | an older task is never penalised less than a newer one |
| Keywords.FirstMatch | priority_algorithm.py:288-292 | the index found is that of a keyword that occurs in the text, with no earlier keyword of the group occurring; none is found exactly when no keyword occurs |
| Keywords.ScanGroup | priority_algorithm.py:288-292 | the scan loop with its `break` finds exactly the first keyword of the group that occurs in the text |
| Keywords.AnalyzeKeywords | priority_algorithm.py:280-317 | the boost and reasons are the per-group contributions in group order, the boost lies in [-15, 50], and there are at most 3 reasons |
| Keywords.KeywordBoostIsSubsetSum | priority_algorithm.py:286-315 | each group counts at most once, so the boost is a subset sum of {+25, +15, +10, -15} |
| Keywords.KeywordReasonCount | priority_algorithm.py:286-315 | there is one reason per hit among the urgent, important and negative groups, and none for the time group |
| Keywords.FirstMatchDependsOnHits | priority_algorithm.py:288-292 | the first hit of a group depends only on which of its keywords occur |
| Keywords.KeywordAnalysisSeesOnlyHits | priority_algorithm.py:280-317 | two texts containing the same keywords get the same boost and reasons; repeating a keyword changes nothing |
| Keywords.KeywordAnalysisIgnoresCase | priority_algorithm.py:282-317 | lower-casing a text first changes neither the boost nor the reasons, because the analysis lowers the text itself |
| Keywords.KeywordHitIgnoresCase | priority_algorithm.py:282-292 | a keyword written in the text in any mix of capitals and small letters makes its group hit, at that keyword or an earlier one |
| Priority.PriorityMultiplier | priority_algorithm.py:102-108 | the multiplier lies in [0.85, 1.3]; an unknown level is neutral (1.0) |
| Priority.Bounded | priority_algorithm.py:110-116 | the result is at most 120; a value up to 100 is unchanged; above 100 it is damped strictly below itself; it hits 120 exactly from 500/3 upwards |
| Priority.Shape | priority_algorithm.py:108-116 | the shaped score never exceeds 120 |
| Priority.MasterScore | priority_algorithm.py:31-116 | the unrounded final score never exceeds 120 |
| Priority.RoundCents | priority_algorithm.py:118 | the reported score is a whole number of cents within half a cent of the exact score |
| Priority.RoundCentsMonotone | priority_algorithm.py:118 | rounding to cents never reverses the order of two scores |
| Priority.RoundCentsExact | priority_algorithm.py:118 | a whole number of cents is left unchanged |
| Priority.BoundedMonotone | priority_algorithm.py:112-116 | damping and capping never reverse the order of two scores |
| Priority.ShapeProperties | priority_algorithm.py:108-116 | a non-negative sum stays non-negative; above 100 only 30 % of the excess survives, up to the cap; an unknown level with a sum up to 100 leaves the sum unchanged |
| Priority.WeightedSumLowerBound | priority_algorithm.py:31-98 | for any non-negative importance, the floors of the factors outweigh the worst keyword penalty, so the sum is at least 6 |
| Priority.MasterScoreInRange | priority_algorithm.py:18-118 | for any non-negative importance, both the exact and the reported score lie in [0, 120] |
| Priority.MasterReasonsShape | priority_algorithm.py:38-99 | there are at most 8 reasons; the keyword reasons come last; an urgency flag, when raised, comes first |
| Priority.OverdueFlagWithinADay | priority_algorithm.py:38-39 | a task due in one hour, which is not overdue, is still flagged "OVERDUE" first |
| Priority.EffortFactor | priority_algorithm.py:55-73 | the effort block yields the WSJF tier and the quick-win, frog or elephant flag of the task |
| Priority.AccumulateFactors | priority_algorithm.py:31-99 | the running score ends at the weighted sum of all factors plus the keyword boost; the reasons are the blocks' reasons in discovery order; the recommendation is the task's window |
| Priority.ApplyPriority | priority_algorithm.py:101-116 | multiplying, damping and capping step by step gives the shaped score, at most 120 |
| Priority.CalculateMasterPriority | priority_algorithm.py:18-118 | the result is the task's reported score, its reasons and its recommended window |
| Plan.Insert | priority_algorithm.py:338 | insertion adds exactly one entry: the result is the input plus that entry, as a multiset |
| Plan.SortByScore | priority_algorithm.py:338 | the sorted list is a permutation of the scored list |
| Plan.InsertRanked | priority_algorithm.py:338 | inserting an entry that precedes all others in input order keeps a list ranked |
| Plan.SortByScoreRanked | priority_algorithm.py:338 | sorting entries given in input order ranks them: scores never increase, and equal scores keep input order (stability) |
| Plan.TagTwoMinute | priority_algorithm.py:341-344 | tagging changes no score, task, position or window; it prepends "do now" exactly to the two-minute entries with fewer than two before them |
| Plan.AtMostTwoTagged | priority_algorithm.py:341-344 | at most two entries are tagged |
| Plan.FirstTwoTagged | priority_algorithm.py:341-344 | the first two two-minute entries in ranking order are both tagged |
| Plan.ApplyTwoMinuteRule | priority_algorithm.py:341-344 | the tagging loop computes exactly the tagged ranking |
| Plan.TagKeepsRanking | priority_algorithm.py:338-344 | tagging keeps the ranking order |
| Plan.RankingCorrect | priority_algorithm.py:325-344 | the ranking has one entry per task, is ranked, and is a permutation of the scored entries, each being the composer's result for its task |
| Plan.Select | priority_algorithm.py:355-373 | a bucket's candidates are exactly the ranked entries it admits that are not already placed |
| Plan.Take | priority_algorithm.py:361-373 | a bucket slice is the first min(n, number of candidates) candidates, in their order |
| Plan.TakeRanked | priority_algorithm.py:361-373 | a slice of a ranking is a ranking |
| Plan.BucketsRanked | priority_algorithm.py:355-373 | each bucket lists its entries in ranking order |
| Plan.SumMinutesAppend | priority_algorithm.py:346-373 | the total of concatenated buckets is the sum of their totals |
| Plan.BuildPlan | priority_algorithm.py:346-373 | buckets hold at most 1, 3 and 2 entries; each entry qualifies for its bucket; no entry is in two buckets; the total time is the minutes of all placed entries |
| Plan.SelectRanked | priority_algorithm.py:355-373 | filtering a ranking keeps it ranked |
| Plan.BucketTakesBest | priority_algorithm.py:361-373 | if a qualifying, unplaced candidate is left out, the bucket is full and everything in it ranks before that candidate |
| Plan.MorningFocusIsBestFrog | priority_algorithm.py:355-358 | the morning focus is empty exactly when no entry qualifies as a frog; otherwise it is the best-ranked frog |
| Plan.ScoreTasks | priority_algorithm.py:325-334 | the scoring loop yields, in input order, each task's composer result |
| Plan.FillBuckets | priority_algorithm.py:346-373 | the bucket blocks and the running total build exactly the plan of the ranking |
| Plan.CreateDailyPlan | priority_algorithm.py:320-375 | the plan is built from the tagged stable ranking of all scored tasks; the second result is the ranking sliced to `max_tasks` with Python's slice semantics, including negative values |

## Left out

- `server.py`, `script.js` and `migrate_db.py` are not part of this model. They are the Flask API, the browser client and the storage migration.
- The clock is a parameter, not `datetime.now()`. The source reads the clock separately in the urgency, energy and aging scorers. The model evaluates a whole pass against one instant.
- ISO-8601 parsing is not modelled. A timestamp is a whole number of seconds or `None`. `None` stands for:
  - a missing timestamp;
  - an empty one;
  - an unparsable one;
  - an offset-bearing one, which fails the naive subtraction and is swallowed by the bare `except`.
- Sub-second precision is dropped. The four-hour test compares whole seconds.
- Floating point is replaced by exact reals, so scores carry no binary rounding error.
- RoundCents rounds exact ties to the even cent. Python rounds the nearest binary float, which is not always a tie, so on such values the two can differ by one cent.
- Lower maps only ASCII letters. `str.lower()` also folds other scripts.
- `None` for `importance` or `estimated_time` is not modelled. Both are plain integers, with 0 as the falsy value. The source raises `TypeError` on `None` in `task.importance >= 4` and `estimated_time <= 2`.
- The unreachable `return 50` after the energy chain is not modelled. The chain ends in an unconditional `else`.
- The sort and the two-minute tagging are modelled on values. The source sorts the list in place and inserts into the shared reason lists. This order is unobservable because tagging happens before any bucket takes an entry. The model does not capture aliasing between the ranking and the buckets.
- Entry equality in `not in` is modelled by input position. Two entries are equal only when they come from the same input position. In the source, the same task object listed twice gives equal dictionaries, so the buckets would treat the duplicate as already placed.
- The default `max_tasks=5` is not modelled. Callers pass the value explicitly.
