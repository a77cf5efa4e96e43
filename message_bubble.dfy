/**
 * The relative time a chat bubble shows (`formatTime` of the message-bubble
 * component). The age `diff` is the current time minus the message time in
 * milliseconds; the calendar month (0-based) and day of the message are
 * inputs, since local-time conversion is not modelled.
 */
module MessageBubble {
  import opened Text

  const MINUTE: int := 60000
  const HOUR: int := 3600000
  const DAY: int := 86400000

  /** Which of the four texts the bubble shows, with the number it shows. */
  datatype Bucket =
    | JustNow                          // '刚刚'
    | MinutesAgo(minutes: nat)         // 'n分钟前'
    | HoursAgo(hours: nat)             // 'n小时前'
    | OnDay(month: nat, date: nat)     // 'month/date'

  /** The threshold chain: the first bound the age is below decides the bucket. */
  function Classify(diff: int, month: nat, date: nat): (b: Bucket)
    ensures b.JustNow? <==> diff < MINUTE
    ensures b.MinutesAgo? <==> MINUTE <= diff < HOUR
    ensures b.HoursAgo? <==> HOUR <= diff < DAY
    ensures b.OnDay? <==> DAY <= diff
    ensures b.MinutesAgo? ==> 1 <= b.minutes <= 59 && b.minutes * MINUTE <= diff < (b.minutes + 1) * MINUTE
    ensures b.HoursAgo? ==> 1 <= b.hours <= 23 && b.hours * HOUR <= diff < (b.hours + 1) * HOUR
    ensures b.OnDay? ==> b.month == month + 1 && b.date == date
  {
    if diff < MINUTE then JustNow
    else if diff < HOUR then MinutesAgo(diff / MINUTE)
    else if diff < DAY then HoursAgo(diff / HOUR)
    else OnDay(month + 1, date)
  }

  function Render(b: Bucket): string {
    match b
    case JustNow => "刚刚"
    case MinutesAgo(n) => NatToString(n) + "分钟前"
    case HoursAgo(n) => NatToString(n) + "小时前"
    case OnDay(m, d) => NatToString(m) + "/" + NatToString(d)
  }

  /** `formatTime(timestamp)`. */
  function FormatTime(diff: int, month: nat, date: nat): (r: string)
    ensures diff < MINUTE ==> r == "刚刚"
    ensures r != []
  {
    Render(Classify(diff, month, date))
  }

  /** Equal decimal texts are texts of equal numbers. */
  lemma NatToStringInjective(a: nat, b: nat)
    requires NatToString(a) == NatToString(b)
    ensures a == b
  {
    DigitsValueOfNatToString(a);
    DigitsValueOfNatToString(b);
  }

  /** The characters that tell the four texts apart. */
  lemma RenderEnds(b: Bucket)
    ensures var s := Render(b);
            && |s| >= 2
            && (b.JustNow? ==> s == "刚刚")
            && (b.MinutesAgo? ==> |s| >= 4 && s[|s| - 1] == '前' && s[|s| - 3] == '分' && s[..|s| - 3] == NatToString(b.minutes))
            && (b.HoursAgo? ==> |s| >= 4 && s[|s| - 1] == '前' && s[|s| - 3] == '小' && s[..|s| - 3] == NatToString(b.hours))
            && (b.OnDay? ==> IsDigit(s[|s| - 1]))
  {
    var s := Render(b);
    if b.OnDay? {
      var d := NatToString(b.date);
      assert s[|s| - 1] == d[|d| - 1];
    }
  }

  /** The text determines the bucket and its number: no two buckets ever show the same text. */
  lemma RenderInjective(a: Bucket, b: Bucket)
    requires Render(a) == Render(b)
    ensures a == b
  {
    RenderEnds(a);
    RenderEnds(b);
    if a.MinutesAgo? && b.MinutesAgo? {
      NatToStringInjective(a.minutes, b.minutes);
    } else if a.HoursAgo? && b.HoursAgo? {
      NatToStringInjective(a.hours, b.hours);
    } else if a.OnDay? && b.OnDay? {
      var m1, d1 := NatToString(a.month), NatToString(a.date);
      var m2, d2 := NatToString(b.month), NatToString(b.date);
      var s := m1 + "/" + d1;
      assert s == m2 + "/" + d2;
      LeadingDigitsBeforeSlash(m1, d1);
      LeadingDigitsBeforeSlash(m2, d2);
      assert m1 == s[..|m1|] == m2;
      assert d1 == s[|m1| + 1..] == d2;
      NatToStringInjective(a.month, b.month);
      NatToStringInjective(a.date, b.date);
    }
  }

  /** In "digits/rest" the run of leading digits ends at the slash. */
  lemma {:induction false} LeadingDigitsBeforeSlash(digits: string, rest: string)
    requires AllDigits(digits)
    ensures LeadingDigits(digits + "/" + rest) == |digits|
  {
    if digits != [] {
      assert (digits + "/" + rest)[1..] == digits[1..] + "/" + rest;
      LeadingDigitsBeforeSlash(digits[1..], rest);
    }
  }

  /** The minutes shown read back as the whole minutes elapsed. */
  lemma MinutesReadBack(diff: int, month: nat, date: nat)
    requires MINUTE <= diff < HOUR
    ensures var r := FormatTime(diff, month, date);
            && |r| > 3 && r[|r| - 3..] == "分钟前" && AllDigits(r[..|r| - 3])
            && DigitsValue(r[..|r| - 3]) == diff / MINUTE
            && 1 <= diff / MINUTE <= 59
  {
    var n := diff / MINUTE;
    var r := FormatTime(diff, month, date);
    assert r == NatToString(n) + "分钟前";
    assert r[..|r| - 3] == NatToString(n);
    DigitsValueOfNatToString(n);
  }

  /** The hours shown read back as the whole hours elapsed. */
  lemma HoursReadBack(diff: int, month: nat, date: nat)
    requires HOUR <= diff < DAY
    ensures var r := FormatTime(diff, month, date);
            && |r| > 3 && r[|r| - 3..] == "小时前" && AllDigits(r[..|r| - 3])
            && DigitsValue(r[..|r| - 3]) == diff / HOUR
            && 1 <= diff / HOUR <= 23
  {
    var n := diff / HOUR;
    var r := FormatTime(diff, month, date);
    assert r == NatToString(n) + "小时前";
    assert r[..|r| - 3] == NatToString(n);
    DigitsValueOfNatToString(n);
  }
}
