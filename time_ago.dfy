/** `formatTimeAgo`: the relative time shown next to a message or notification. */
module TimeAgo {
  import opened Wrappers
  import opened Text
  import opened Js

  const JustNow := "방금 전"
  const MinutesAgo := "분 전"
  const HoursAgo := "시간 전"
  const DaysAgo := "일 전"

  /** The text for a timestamp; `elapsedMs` is `now - new Date(timestamp)` in
      milliseconds, `None` when the timestamp does not parse (the difference is
      then NaN, every comparison fails and the day branch prints "NaN"). */
  function FormatTimeAgo(timestamp: Option<Json>, elapsedMs: Option<int>): (r: string)
    ensures !Truthy(timestamp) ==> r == ""
    ensures Truthy(timestamp) && elapsedMs.None? ==> r == "NaN" + DaysAgo
    ensures Truthy(timestamp) && elapsedMs.Some? ==> r == FormatSeconds(elapsedMs.value / 1000)
  {
    if !Truthy(timestamp) then ""
    else match elapsedMs
         case None => "NaN" + DaysAgo
         case Some(ms) => FormatSeconds(ms / 1000)
  }

  /** The bucketing of a whole number of elapsed seconds; `ms / 1000` is
      `Math.floor(ms / 1000)` because Dafny's division by a positive divisor
      rounds down. */
  function FormatSeconds(d: int): string {
    if d < 60 then JustNow
    else if d / 60 < 60 then IntToString(d / 60) + MinutesAgo
    else if d / 3600 < 24 then IntToString(d / 3600) + HoursAgo
    else IntToString(d / 86400) + DaysAgo
  }

  datatype Unit = Now | Minutes | Hours | Days

  /** The bucket each elapsed time falls into, and the number shown with it. */
  function BucketOf(d: int): Unit {
    if d < 60 then Now else if d < 3600 then Minutes else if d < 86400 then Hours else Days
  }

  function AmountOf(d: int): int {
    match BucketOf(d)
    case Now => 0
    case Minutes => d / 60
    case Hours => d / 3600
    case Days => d / 86400
  }

  function SuffixOf(u: Unit): string {
    match u
    case Now => JustNow
    case Minutes => MinutesAgo
    case Hours => HoursAgo
    case Days => DaysAgo
  }

  /** Under a minute, including negative times (a timestamp in the future),
      reads "just now"; otherwise the text is the count followed by the unit,
      with the count 1..59 for minutes, 1..23 for hours and at least 1 for days. */
  lemma Buckets(d: int)
    ensures d < 60 ==> FormatSeconds(d) == JustNow
    ensures 60 <= d < 3600 ==> FormatSeconds(d) == IntToString(d / 60) + MinutesAgo && 1 <= d / 60 <= 59
    ensures 3600 <= d < 86400 ==> FormatSeconds(d) == IntToString(d / 3600) + HoursAgo && 1 <= d / 3600 <= 23
    ensures 86400 <= d ==> FormatSeconds(d) == IntToString(d / 86400) + DaysAgo && 1 <= d / 86400
  {
  }

  /** The text starts with a digit exactly when the time is a minute or more. */
  lemma FirstCharIsDigit(d: int)
    ensures FormatSeconds(d) != [] && (IsDigit(FormatSeconds(d)[0]) <==> BucketOf(d) != Now)
  {
    if BucketOf(d) != Now {
      var a: nat := AmountOf(d);
      assert FormatSeconds(d) == NatToString(a) + SuffixOf(BucketOf(d));
      assert FormatSeconds(d)[0] == NatToString(a)[0];
    }
  }

  /** The text determines the bucket and the number: two elapsed times print
      the same exactly when they fall in the same bucket with the same count. */
  lemma {:induction false} TextDeterminesBucket(d1: int, d2: int)
    ensures FormatSeconds(d1) == FormatSeconds(d2) <==>
      (BucketOf(d1) == BucketOf(d2) && AmountOf(d1) == AmountOf(d2))
  {
    FirstCharIsDigit(d1);
    FirstCharIsDigit(d2);
    if FormatSeconds(d1) == FormatSeconds(d2) && BucketOf(d1) != Now && BucketOf(d2) != Now {
      var a1: nat, a2: nat := AmountOf(d1), AmountOf(d2);
      DigitsPrefixCancel(a1, a2, SuffixOf(BucketOf(d1)), SuffixOf(BucketOf(d2)));
    }
  }
}
