/** Keyword analysis: four keyword groups scanned in a fixed order over the
    lower-cased task text. A group contributes at most once: its scan stops
    at the first keyword of the group that occurs in the text. */
module Keywords {
  import opened Common

  const UrgentKeywords: seq<string> :=
    ["urgent", "asap", "critical", "emergency", "now", "immediately", "crisis"]
  const ImportantKeywords: seq<string> :=
    ["important", "crucial", "essential", "vital", "key", "priority", "must"]
  const TimeKeywords: seq<string> :=
    ["today", "tonight", "deadline", "meeting", "call", "appointment", "presentation"]
  const NegativeKeywords: seq<string> :=
    ["maybe", "someday", "eventually", "consider", "think about"]

  const UrgentBoost := 25
  const ImportantBoost := 15
  const TimeBoost := 10
  const NegativePenalty := 15


  /** Position of the first keyword of `keywords` that occurs in `text`. */
  function FirstMatch(keywords: seq<string>, text: string): (r: Option<nat>)
    ensures r.Some? ==> r.value < |keywords| && Contains(text, keywords[r.value])
    ensures r.Some? ==> forall j :: 0 <= j < r.value ==> !Contains(text, keywords[j])
    ensures r.None? <==> forall j :: 0 <= j < |keywords| ==> !Contains(text, keywords[j])
  {
    if |keywords| == 0 then None
    else if Contains(text, keywords[0]) then Some(0)
    else match FirstMatch(keywords[1..], text)
      case None => None
      case Some(k) => Some(k + 1)
  }

  /** The scan of one group: the loop with its `break` on the first hit. */
  method ScanGroup(keywords: seq<string>, text: string) returns (hit: Option<nat>)
    ensures hit == FirstMatch(keywords, text)
  {
    hit := None;
    var i := 0;
    while i < |keywords|
      invariant 0 <= i <= |keywords|
      invariant forall j :: 0 <= j < i ==> !Contains(text, keywords[j])
    {
      if Contains(text, keywords[i]) {
        hit := Some(i);
        break;
      }
      i := i + 1;
    }
  }

  /** True when some keyword of the group occurs in the lower-cased text. */
  predicate GroupHits(keywords: seq<string>, text: string)
  {
    FirstMatch(keywords, Lower(text)).Some?
  }

  /** The reason the urgent group adds, naming its first hit, if any. */
  function UrgentReasons(text: string): seq<Reason>
  {
    match FirstMatch(UrgentKeywords, Lower(text))
    case None => []
    case Some(k) => [UrgentKeyword(UrgentKeywords[k])]
  }

  function ImportantReasons(text: string): seq<Reason>
  {
    match FirstMatch(ImportantKeywords, Lower(text))
    case None => []
    case Some(k) => [ImportantKeyword(ImportantKeywords[k])]
  }

  function OptionalReasons(text: string): seq<Reason>
  {
    match FirstMatch(NegativeKeywords, Lower(text))
    case None => []
    case Some(k) => [OptionalKeyword(NegativeKeywords[k])]
  }

  /** The net keyword boost of a text. */
  function KeywordBoost(text: string): int
  {
    (if GroupHits(UrgentKeywords, text) then UrgentBoost else 0)
    + (if GroupHits(ImportantKeywords, text) then ImportantBoost else 0)
    + (if GroupHits(TimeKeywords, text) then TimeBoost else 0)
    - (if GroupHits(NegativeKeywords, text) then NegativePenalty else 0)
  }

  /** The keyword reasons of a text, in group order; the time group has none. */
  function KeywordReasons(text: string): seq<Reason>
  {
    UrgentReasons(text) + ImportantReasons(text) + OptionalReasons(text)
  }

  /** `analyze_keywords`: four scans over the lower-cased text, accumulating
      the boost and the reasons as it goes. */
  method AnalyzeKeywords(text: string) returns (boost: int, reasons: seq<Reason>)
    ensures boost == KeywordBoost(text)
    ensures reasons == KeywordReasons(text)
    ensures -NegativePenalty <= boost <= UrgentBoost + ImportantBoost + TimeBoost
    ensures |reasons| <= 3
  {
    var lower := Lower(text);
    boost := 0;
    reasons := [];
    var hit := ScanGroup(UrgentKeywords, lower);
    if hit.Some? {
      boost := boost + UrgentBoost;
      reasons := reasons + [UrgentKeyword(UrgentKeywords[hit.value])];
    }
    assert reasons == UrgentReasons(text);
    hit := ScanGroup(ImportantKeywords, lower);
    if hit.Some? {
      boost := boost + ImportantBoost;
      reasons := reasons + [ImportantKeyword(ImportantKeywords[hit.value])];
    }
    assert reasons == UrgentReasons(text) + ImportantReasons(text);
    hit := ScanGroup(TimeKeywords, lower);
    if hit.Some? {
      boost := boost + TimeBoost;
    }
    hit := ScanGroup(NegativeKeywords, lower);
    if hit.Some? {
      boost := boost - NegativePenalty;
      reasons := reasons + [OptionalKeyword(NegativeKeywords[hit.value])];
    }
  }

  /** Each group adds at most once: the boost is the sum of a subset of
      {+25, +15, +10, -15}, hence within [-15, 50]. */
  lemma KeywordBoostIsSubsetSum(text: string)
    ensures exists u, i, t, n ::
      (u in {0, 1} && i in {0, 1} && t in {0, 1} && n in {0, 1}
       && KeywordBoost(text) == 25 * u + 15 * i + 10 * t - 15 * n)
    ensures -15 <= KeywordBoost(text) <= 50
  {
    var u := if GroupHits(UrgentKeywords, text) then 1 else 0;
    var i := if GroupHits(ImportantKeywords, text) then 1 else 0;
    var t := if GroupHits(TimeKeywords, text) then 1 else 0;
    var n := if GroupHits(NegativeKeywords, text) then 1 else 0;
    assert KeywordBoost(text) == 25 * u + 15 * i + 10 * t - 15 * n;
  }

  /** At most three reasons; exactly one per hit among the urgent, important
      and negative groups, so a time keyword alone gives none. */
  lemma KeywordReasonCount(text: string)
    ensures |KeywordReasons(text)| ==
      (if GroupHits(UrgentKeywords, text) then 1 else 0)
      + (if GroupHits(ImportantKeywords, text) then 1 else 0)
      + (if GroupHits(NegativeKeywords, text) then 1 else 0)
    ensures |KeywordReasons(text)| <= 3
  {
  }

  /** The first hit of a group depends only on which of its keywords occur. */
  lemma {:induction false} FirstMatchDependsOnHits(keywords: seq<string>, a: string, b: string)
    requires forall j :: 0 <= j < |keywords| ==> (Contains(a, keywords[j]) <==> Contains(b, keywords[j]))
    ensures FirstMatch(keywords, a) == FirstMatch(keywords, b)
  {
    if |keywords| > 0 && !Contains(a, keywords[0]) {
      FirstMatchDependsOnHits(keywords[1..], a, b);
    }
  }

  /** True when texts `a` and `b` contain exactly the same keywords of every group. */
  predicate SameKeywords(a: string, b: string)
  {
    var groups := [UrgentKeywords, ImportantKeywords, TimeKeywords, NegativeKeywords];
    forall g, j :: 0 <= g < |groups| && 0 <= j < |groups[g]| ==>
      (Contains(Lower(a), groups[g][j]) <==> Contains(Lower(b), groups[g][j]))
  }

  /** Repeating a keyword, or adding any text that brings no new keyword,
      leaves the analysis unchanged: it sees only which keywords occur. */
  lemma KeywordAnalysisSeesOnlyHits(a: string, b: string)
    requires SameKeywords(a, b)
    ensures KeywordBoost(a) == KeywordBoost(b)
    ensures KeywordReasons(a) == KeywordReasons(b)
  {
    var groups := [UrgentKeywords, ImportantKeywords, TimeKeywords, NegativeKeywords];
    forall g | 0 <= g < |groups|
      ensures FirstMatch(groups[g], Lower(a)) == FirstMatch(groups[g], Lower(b))
    {
      FirstMatchDependsOnHits(groups[g], Lower(a), Lower(b));
    }
    assert groups[0] == UrgentKeywords && groups[1] == ImportantKeywords;
    assert groups[2] == TimeKeywords && groups[3] == NegativeKeywords;
  }

  lemma LowerIdempotent(s: string)
    ensures Lower(Lower(s)) == Lower(s)
  {
  }

  /** Lower-casing a text first changes nothing, since the analysis lowers
      the text itself and lowering twice is lowering once. */
  lemma KeywordAnalysisIgnoresCase(text: string)
    ensures KeywordBoost(Lower(text)) == KeywordBoost(text)
    ensures KeywordReasons(Lower(text)) == KeywordReasons(text)
  {
    LowerIdempotent(text);
  }

  /** A keyword (itself without capitals) written in the text in any mix
      of capitals and small letters still counts: its group hits, at that keyword or an earlier one. */
  lemma KeywordHitIgnoresCase(keywords: seq<string>, text: string, j: int, i: int)
    requires 0 <= j < |keywords|
    requires 0 <= i <= |text| - |keywords[j]|
    requires forall k :: 0 <= k < |keywords[j]| ==> !('A' <= keywords[j][k] <= 'Z')
    requires forall k :: 0 <= k < |keywords[j]| ==>
      text[i + k] == keywords[j][k]
      || ('a' <= keywords[j][k] <= 'z' && text[i + k] as int == keywords[j][k] as int - 32)
    ensures GroupHits(keywords, text)
    ensures FirstMatch(keywords, Lower(text)).value <= j
  {
    var w := keywords[j];
    var lower := Lower(text);
    forall k | 0 <= k < |w|
      ensures lower[i..i + |w|][k] == w[k]
    {
      assert lower[i..i + |w|][k] == LowerChar(text[i + k]);
      if text[i + k] != w[k] {
        assert 'A' <= text[i + k] <= 'Z';
      }
    }
    assert lower[i..i + |w|] == w;
    assert OccursAt(lower, w, i);
  }
}
