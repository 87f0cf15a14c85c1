/** The text the bot produces: the five readouts drawn under the bar, the
    caption posted with the image, and the date-stamped file name. Each
    number is written with Python's `str()`, so a negative day count after
    the release is written with its minus sign. */
module Texts {
  import opened Wrappers
  import opened Calendar
  import opened Decimal
  import opened Drawing
  import opened Fonts
  import opened Progress

  const DaysSuffix := " DAYS REMAINING"
  const ComingLabel := "COMING"
  const ReleaseLabel := "NOVEMBER 19, 2026"
  const Watermark := "@gta6countdown26"

  function PercentText(p: int): string {
    IntToString(p) + "%"
  }

  function DaysText(d: int): string {
    IntToString(d) + DaysSuffix
  }

  /** Reads a day count back from its readout. */
  function ParseDaysText(s: string): Option<int> {
    if |s| > |DaysSuffix| && s[|s| - |DaysSuffix|..] == DaysSuffix then ParseInt(s[..|s| - |DaysSuffix|])
    else None
  }

  /** Reads a percentage back from its readout. */
  function ParsePercentText(s: string): Option<int> {
    if |s| > 1 && s[|s| - 1] == '%' then ParseInt(s[..|s| - 1]) else None
  }

  lemma PercentTextRoundTrip(p: int)
    ensures ParsePercentText(PercentText(p)) == Some(p)
  {
    var s := PercentText(p);
    assert s[..|s| - 1] == IntToString(p);
    IntToStringRoundTrip(p);
  }

  lemma DaysTextRoundTrip(d: int)
    ensures ParseDaysText(DaysText(d)) == Some(d)
  {
    var s := DaysText(d);
    assert s[|s| - |DaysSuffix|..] == DaysSuffix;
    assert s[..|s| - |DaysSuffix|] == IntToString(d);
    IntToStringRoundTrip(d);
  }

  /** The five `draw.text` calls after the bar, in order: percentage, days
      remaining, "COMING", the release date and the watermark. */
  function ReadoutOps(s: Snapshot, fonts: FontSet): (ops: seq<Op>)
    ensures |ops| == 5
  {
    [ Text(540, 760, PercentText(s.percentage), fonts.large, White, MiddleMiddle),
      Text(540, 940, DaysText(s.daysRemaining), fonts.small, White, MiddleMiddle),
      Text(540, 10005, ComingLabel, fonts.medium, White, MiddleMiddle),
      Text(540, 870, ReleaseLabel, fonts.small, White, MiddleMiddle),
      Text(20, 1060, Watermark, fonts.supersmall, Lilac, LeftMiddle) ]
  }

  /** The readouts show the snapshot: equal readouts mean equal percentage
      and equal days remaining. */
  lemma ReadoutsDetermineSnapshot(s1: Snapshot, s2: Snapshot, f1: FontSet, f2: FontSet)
    requires ReadoutOps(s1, f1) == ReadoutOps(s2, f2)
    ensures s1 == s2
  {
    PercentTextRoundTrip(s1.percentage);
    PercentTextRoundTrip(s2.percentage);
    DaysTextRoundTrip(s1.daysRemaining);
    DaysTextRoundTrip(s2.daysRemaining);
    assert ReadoutOps(s1, f1)[0].text == ReadoutOps(s2, f2)[0].text;
    assert ReadoutOps(s1, f1)[1].text == ReadoutOps(s2, f2)[1].text;
  }

  /** Every readout is anchored on the canvas except "COMING", whose anchor
      lies far below it, so that label never shows. */
  lemma ReadoutAnchors(s: Snapshot, fonts: FontSet)
    ensures var ops := ReadoutOps(s, fonts);
      forall k :: 0 <= k < 5 && k != 2 ==> 0 <= ops[k].x < CanvasSize && 0 <= ops[k].y < CanvasSize
    ensures ReadoutOps(s, fonts)[2].y >= CanvasSize && ReadoutOps(s, fonts)[2].text == ComingLabel
  {
  }

  // ---------------------------------------------------------------------------
  // The caption.

  const CaptionHead := "\U{1F3AE} GTA VI COUNTDOWN \U{1F334}\n\n\U{1F4CA} Progress: "
  const CaptionMiddle := "%" + "\n\U{23F0} Days Remaining: "
  const CaptionTail := "\n" + "\U{1F4C5} Release: November 19, 2026\n\n#GTAVI #GrandTheftAutoVI #RockstarGames"

  /** The tweet text built from the snapshot. */
  function Caption(s: Snapshot): string {
    CaptionHead + (IntToString(s.percentage) + (CaptionMiddle + (IntToString(s.daysRemaining) + CaptionTail)))
  }

  lemma CancelPrefix(h: string, x: string, y: string)
    requires h + x == h + y
    ensures x == y
  {
    assert x == (h + x)[|h|..];
    assert y == (h + y)[|h|..];
  }

  /** Two numbers framed by the same text, where the text after each number
      starts with a non-digit, can be read back apart. */
  lemma FramedNumbersInjective(h: string, m: string, t: string, a1: int, a2: int, b1: int, b2: int)
    requires |m| >= 1 && !IsDigit(m[0]) && |t| >= 1 && !IsDigit(t[0])
    requires h + (IntToString(a1) + (m + (IntToString(a2) + t)))
          == h + (IntToString(b1) + (m + (IntToString(b2) + t)))
    ensures a1 == b1 && a2 == b2
  {
    var x, y := m + (IntToString(a2) + t), m + (IntToString(b2) + t);
    CancelPrefix(h, IntToString(a1) + x, IntToString(b1) + y);
    assert x[0] == m[0] && y[0] == m[0];
    IntToStringPrefix(a1, b1, x, y);
    CancelPrefix(m, IntToString(a2) + t, IntToString(b2) + t);
    IntToStringPrefix(a2, b2, t, t);
  }

  /** Different snapshots give different captions. */
  lemma CaptionInjective(a: Snapshot, b: Snapshot)
    requires Caption(a) == Caption(b)
    ensures a == b
  {
    assert CaptionMiddle[0] == '%' && CaptionTail[0] == '\n';
    FramedNumbersInjective(CaptionHead, CaptionMiddle, CaptionTail,
      a.percentage, a.daysRemaining, b.percentage, b.daysRemaining);
  }

  // ---------------------------------------------------------------------------
  // The file name.

  const FilePrefix := "gta_vi_countdown_"
  const FileSuffix := ".png"

  /** `%Y%m%d` of a date: ISO 8601 basic calendar date, `YYYYMMDD`. */
  function BasicDate(d: Date): (s: string)
    requires ValidDate(d)
    ensures |s| == 8 && AllDigits(s)
  {
    Pad(d.year, 4) + Pad(d.month, 2) + Pad(d.day, 2)
  }

  function Filename(d: Date): (s: string)
    requires ValidDate(d)
    ensures |s| == |FilePrefix| + 8 + |FileSuffix|
  {
    FilePrefix + BasicDate(d) + FileSuffix
  }

  /** Reads the date back out of a file name; `None` for anything else. */
  function ParseFilename(s: string): Option<Date> {
    var p := |FilePrefix|;
    if |s| == p + 8 + |FileSuffix| && s[..p] == FilePrefix && s[p + 8..] == FileSuffix
      && AllDigits(s[p..p + 4]) && AllDigits(s[p + 4..p + 6]) && AllDigits(s[p + 6..p + 8])
    then Some(Date(ParseDigits(s[p..p + 4]), ParseDigits(s[p + 4..p + 6]), ParseDigits(s[p + 6..p + 8])))
    else None
  }

  lemma FilenameRoundTrip(d: Date)
    requires ValidDate(d)
    ensures ParseFilename(Filename(d)) == Some(d)
  {
    var s := Filename(d);
    var p := |FilePrefix|;
    assert s[..p] == FilePrefix;
    assert s[p + 8..] == FileSuffix;
    assert s[p..p + 4] == Pad(d.year, 4);
    assert s[p + 4..p + 6] == Pad(d.month, 2);
    assert s[p + 6..p + 8] == Pad(d.day, 2);
    PadRoundTrip(d.year, 4);
    PadRoundTrip(d.month, 2);
    PadRoundTrip(d.day, 2);
  }

  /** Runs on different days write different files. */
  lemma FilenameInjective(a: Date, b: Date)
    requires ValidDate(a) && ValidDate(b) && Filename(a) == Filename(b)
    ensures a == b
  {
    FilenameRoundTrip(a);
    FilenameRoundTrip(b);
  }

  /** The file written on 19 May 2026. */
  lemma FilenameExample()
    ensures Filename(Date(2026, 5, 19)) == "gta_vi_countdown_20260519.png"
  {
  }
}
