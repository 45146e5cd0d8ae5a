/** The relative date shown beside each saved chat in the sidebar. */
module ChatSidebar {
  import ChatText
  import opened ChatTypes

  /** Milliseconds in a day: `1000 * 60 * 60 * 24`. */
  const MsPerDay := 1000 * 60 * 60 * 24

  /** The four outcomes of the date formatter. */
  datatype DateLabel =
    | Today
    | Yesterday
    | DaysAgo(days: int)
    | Absolute  // the locale-formatted calendar date

  /**
   * `Math.floor(diff / MsPerDay)` for an integer number of milliseconds.
   * Dafny's `/` rounds toward negative infinity when the divisor is positive.
   */
  function WholeDays(diff: int): (days: int)
    ensures days * MsPerDay <= diff < (days + 1) * MsPerDay
  {
    diff / MsPerDay
  }

  /** The label for a whole number of days between the chat's date and now. */
  function DayLabel(days: int): DateLabel
  {
    if days == 0 then Today
    else if days == 1 then Yesterday
    else if days < 7 then DaysAgo(days)
    else Absolute
  }

  /**
   * `formatDate` for a chat whose date lies `diff` milliseconds before now
   * (`now.getTime() - date.getTime()`; negative for a date in the future).
   */
  function FormatDate(diff: int): (bucket: DateLabel)
    ensures bucket == Today <==> 0 <= diff < MsPerDay
    ensures bucket == Yesterday <==> MsPerDay <= diff < 2 * MsPerDay
    ensures bucket.DaysAgo? <==> diff < 0 || 2 * MsPerDay <= diff < 7 * MsPerDay
    ensures bucket.DaysAgo? ==> bucket.days * MsPerDay <= diff < (bucket.days + 1) * MsPerDay && bucket.days < 7
    ensures bucket == Absolute <==> 7 * MsPerDay <= diff
    ensures -MsPerDay <= diff < 0 ==> bucket == DaysAgo(-1)
  {
    DayLabel(WholeDays(diff))
  }

  /** The whole-day count of a difference is the one window it falls in. */
  lemma WholeDaysUnique(diff: int, days: int)
    requires days * MsPerDay <= diff < (days + 1) * MsPerDay
    ensures WholeDays(diff) == days
  {
    var d := WholeDays(diff);
    assert d * MsPerDay <= diff < (d + 1) * MsPerDay;
  }

  /** Two differences that fall in the same whole-day window get the same label. */
  lemma SameDaySameLabel(a: int, b: int, days: int)
    requires days * MsPerDay <= a < (days + 1) * MsPerDay
    requires days * MsPerDay <= b < (days + 1) * MsPerDay
    ensures FormatDate(a) == FormatDate(b) == DayLabel(days)
  {
    WholeDaysUnique(a, days);
    WholeDaysUnique(b, days);
  }

  /** The text the sidebar shows, or `None` for the locale-formatted date, which is not modelled. */
  function LabelText(bucket: DateLabel): (text: Option<string>)
    ensures text.None? <==> bucket == Absolute
    ensures bucket == Today ==> text == Some("Today")
    ensures bucket == Yesterday ==> text == Some("Yesterday")
    ensures bucket.DaysAgo? ==> text == Some(ChatText.IntegerString(bucket.days) + " days ago")
  {
    match bucket
    case Today => Some("Today")
    case Yesterday => Some("Yesterday")
    case DaysAgo(d) => Some(ChatText.IntegerString(d) + " days ago")
    case Absolute => None
  }

  /** The "days ago" text names its day count: two counts show the same text only when they are equal. */
  lemma DaysAgoTextInjective(m: int, n: int)
    ensures LabelText(DaysAgo(m)) == LabelText(DaysAgo(n)) <==> m == n
  {
    var p, q := ChatText.IntegerString(m), ChatText.IntegerString(n);
    if LabelText(DaysAgo(m)) == LabelText(DaysAgo(n)) {
      assert (p + " days ago")[..|p|] == p;
      assert (q + " days ago")[..|q|] == q;
      assert p == q;
    }
    ChatText.IntegerStringInjective(m, n);
  }

  /** A chat dated up to a day in the future is shown as "-1 days ago", not as "Today". */
  lemma FutureShowsMinusOne(diff: int)
    requires -MsPerDay <= diff < 0
    ensures LabelText(FormatDate(diff)) == Some("-1 days ago")
  {
    assert FormatDate(diff) == DaysAgo(-1);
    assert ChatText.DecimalString(1) == "1";
    assert ChatText.IntegerString(-1) == "-1";
    assert "-1" + " days ago" == "-1 days ago";
  }
}
