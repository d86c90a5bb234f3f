/** Values shared by every part of the prioritisation engine: the task record
    it reads, the injected clock, and the small string helpers the scorers use. */
module Common {

  datatype Option<T> = None | Some(value: T)

  /** An hour of the local day, as `datetime.hour` gives it. */
  type Hour = h: int | 0 <= h < 24

  /** The one instant a scoring pass is computed against: seconds on the
      local naive clock, and the local hour of day. The hour is an input of
      its own: the local time zone that would derive it from `now` is not
      modelled. */
  datatype Clock = Clock(now: int, hour: Hour)

  /** A task record, read-only to the engine. `estimatedTime` and
      `importance` are the raw stored integers: the scorers apply the
      `or` default themselves (0 is falsy), the plan builder does not.
      `dueDate` and `createdAt` are seconds on the same clock as `now`;
      `None` stands for a missing, empty, unparsable or offset-bearing
      timestamp, all of which the engine treats alike. */
  datatype Task = Task(
    text: string,
    priority: string,
    category: string,
    dueDate: Option<int>,
    estimatedTime: int,
    importance: int,
    createdAt: Option<int>)

  /** The explanations the engine attaches to a scored task. */
  datatype Reason =
    | Overdue
    | DueToday
    | DueVerySoon
    | HighImportance(importance: nat)
    | QuickWin
    | EatTheFrog
    | BreakItDown
    | HighImpactCategory(category: string)
    | Aging
    | UrgentKeyword(keyword: string)
    | ImportantKeyword(keyword: string)
    | OptionalKeyword(keyword: string)
    | DoNow
  {
    /** The text the engine emits for this reason. */
    function Text(): string
    {
      match this
      case Overdue => "⚠️ OVERDUE - Critical!"
      case DueToday => "📅 Due today"
      case DueVerySoon => "📅 Due very soon"
      case HighImportance(n) => "⭐ High importance (" + NatToString(n) + "/5)"
      case QuickWin => "⚡ Quick win (15 min)"
      case EatTheFrog => "🐸 Big task - eat the frog"
      case BreakItDown => "🐘 Major project - break it down"
      case HighImpactCategory(c) => "💎 High-impact category (" + c + ")"
      case Aging => "⏰ Task aging - don't forget!"
      case UrgentKeyword(k) => "🚨 Contains '" + k + "'"
      case ImportantKeyword(k) => "❗ Contains '" + k + "'"
      case OptionalKeyword(k) => "💭 Seems optional ('" + k + "')"
      case DoNow => "⚡ 2-MIN RULE: Do now!"
    }
  }

  /** `x or d` on an integer field. */
  function OrDefault(x: int, d: int): int
  {
    if x == 0 then d else x
  }

  function Min(a: int, b: int): int
  {
    if a <= b then a else b
  }

  /** `str.lower()` restricted to ASCII letters. */
  function LowerChar(c: char): (r: char)
    ensures 'A' <= c <= 'Z' ==> 'a' <= r <= 'z' && r as int - c as int == 32
    ensures !('A' <= c <= 'Z') ==> r == c
  {
    if 'A' <= c <= 'Z' then (c as int + 32) as char else c
  }

  function Lower(s: string): (r: string)
    ensures |r| == |s|
    ensures forall i :: 0 <= i < |s| ==> r[i] == LowerChar(s[i])
  {
    seq(|s|, i requires 0 <= i < |s| => LowerChar(s[i]))
  }

  /** Python's `sub in s` on strings: `sub` occurs as a contiguous slice of `s`. */
  predicate Contains(s: string, sub: string)
  {
    exists i :: 0 <= i <= |s| - |sub| && OccursAt(s, sub, i)
  }

  predicate OccursAt(s: string, sub: string, i: int)
  {
    0 <= i <= |s| - |sub| && s[i..i + |sub|] == sub
  }

  function DigitChar(d: int): (c: char)
    requires 0 <= d < 10
    ensures c as int - '0' as int == d
  {
    ('0' as int + d) as char
  }

  /** The number a string of decimal digits denotes. */
  function DecimalValue(s: string): int
  {
    if s == [] then 0
    else DecimalValue(s[..|s| - 1]) * 10 + (s[|s| - 1] as int - '0' as int)
  }

  /** Decimal text of a non-negative integer, as `str(n)` writes it: digits
      only, a leading zero only for 0 itself, and denoting `n`. */
  function NatToString(n: nat): (r: string)
    ensures 1 <= |r|
    ensures forall i :: 0 <= i < |r| ==> '0' <= r[i] <= '9'
    ensures |r| > 1 ==> r[0] != '0'
    ensures DecimalValue(r) == n
    decreases n
  {
    if n < 10 then [DigitChar(n)]
    else
      var r := NatToString(n / 10) + [DigitChar(n % 10)];
      assert r[..|r| - 1] == NatToString(n / 10);
      r
  }
}
