/** The message component's two helpers: the label shown for a status
    and the relative time shown for a timestamp. */
module FrontendView {
  import opened Wrappers
  import opened Text
  import opened FrontendModel

  /** The label table of `getStatusLabel`. */
  function Label(st: MessageStatus): string {
    match st
    case Draft => "Draft"
    case Pending => "Sending..."
    case Sent => "Sent"
    case Received => "Received"
    case Failed => "Failed"
  }

  /** Different statuses are shown with different labels. */
  lemma LabelsDistinct(a: MessageStatus, b: MessageStatus)
    ensures Label(a) == Label(b) <==> a == b
  {
    assert Label(a)[0] != Label(b)[0] || Label(a)[3] != Label(b)[3] || a == b;
  }

  /** `getStatusLabel` on a model: the table entry for the status string,
      and nothing (`undefined`) for any other status the app produces. The
      keys an object literal inherits, such as `constructor`, are not
      modelled. */
  function LabelOf(m: MessageModel): (r: Option<string>)
    ensures r.Some? <==> StatusOf(m.status).Some?
    ensures StatusOf(m.status).Some? ==> r == Some(Label(StatusOf(m.status).value))
  {
    match StatusOf(m.status)
    case Some(st) => Some(Label(st))
    case None => None
  }

  /** A pending message reads "Sending...", and only a pending one does. */
  lemma PendingLabel(m: MessageModel)
    ensures IsPending(m) <==> LabelOf(m) == Some("Sending...")
  {
    StatusTestsExclusive(m);
    if LabelOf(m) == Some("Sending...") {
      LabelsDistinct(StatusOf(m.status).value, Pending);
    }
  }

  /** A model built from data without a status reads "Draft". */
  lemma MissingStatusLabel(d: MessageData, now: string)
    requires d.status.None? || d.status == Some("")
    ensures LabelOf(FromData(d, now)) == Some("Draft")
  {
    MissingStatusIsDraft(d, now);
  }

  const MinuteMs: int := 60000
  const HourMs: int := 3600000
  const DayMs: int := 86400000

  /** Flooring the minutes and then the hours floors the hours. */
  lemma FloorHours(d: int)
    requires d >= 0
    ensures (d / MinuteMs) / 60 == d / HourMs
  {
    var q := d / HourMs;
    var rem := d % HourMs;
    assert d == q * HourMs + rem && 0 <= rem < HourMs;
    var m := rem / MinuteMs;
    assert rem == m * MinuteMs + rem % MinuteMs && 0 <= m < 60;
    assert d == (q * 60 + m) * MinuteMs + rem % MinuteMs;
    assert d / MinuteMs == q * 60 + m;
  }

  /** `formatTimestamp`, with `diffMs` the milliseconds from the timestamp
      to now (`None` for a timestamp `Date` cannot read, whose difference is
      NaN) and `localeDate` the timestamp's `toLocaleDateString()`. A
      timestamp in the future reads "Just now". */
  function FormatTimestamp(diffMs: Option<int>, localeDate: string): (r: string)
    ensures diffMs.None? ==> r == localeDate
    ensures diffMs.Some? && diffMs.value < MinuteMs ==> r == "Just now"
    ensures diffMs.Some? && MinuteMs <= diffMs.value < HourMs ==>
      r == NatToString(diffMs.value / MinuteMs) + "m ago"
    ensures diffMs.Some? && HourMs <= diffMs.value < DayMs ==>
      r == NatToString(diffMs.value / HourMs) + "h ago"
    ensures diffMs.Some? && DayMs <= diffMs.value ==> r == localeDate
  {
    match diffMs
    case None => localeDate
    case Some(d) =>
      var mins := d / MinuteMs;
      if mins < 1 then "Just now"
      else if mins < 60 then NatToString(mins) + "m ago"
      else
        FloorHours(d);
        var hours := mins / 60;
        if hours < 24 then NatToString(hours) + "h ago" else localeDate
  }

  /** The number shown before "m ago" reads back as the whole minutes
      elapsed, between 1 and 59. */
  lemma MinutesReadBack(d: int, localeDate: string)
    requires MinuteMs <= d < HourMs
    ensures exists s ::
      && FormatTimestamp(Some(d), localeDate) == s + "m ago"
      && AllDigits(s)
      && 1 <= ParseNat(s) <= 59
      && ParseNat(s) * MinuteMs <= d < (ParseNat(s) + 1) * MinuteMs
  {
    var n: nat := d / MinuteMs;
    var s := NatToString(n);
    NatToStringRoundTrip(n);
    assert FormatTimestamp(Some(d), localeDate) == s + "m ago";
  }

  /** The number shown before "h ago" reads back as the whole hours
      elapsed, between 1 and 23. */
  lemma HoursReadBack(d: int, localeDate: string)
    requires HourMs <= d < DayMs
    ensures exists s ::
      && FormatTimestamp(Some(d), localeDate) == s + "h ago"
      && AllDigits(s)
      && 1 <= ParseNat(s) <= 23
      && ParseNat(s) * HourMs <= d < (ParseNat(s) + 1) * HourMs
  {
    var n: nat := d / HourMs;
    var s := NatToString(n);
    NatToStringRoundTrip(n);
    assert FormatTimestamp(Some(d), localeDate) == s + "h ago";
  }
}
