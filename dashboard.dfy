/**
 * The dashboard's progress summary and story list
 * (ui/src/components/ProgressSummary.jsx and ui/src/components/StoryList.jsx):
 * the duration texts, the remaining-time estimate, the completed count and
 * progress, and the status dot of each story.
 *
 * Durations are whole seconds; the elapsed-time ticker that feeds the
 * estimate is a parameter.
 */
module Dashboard {

  import opened Wrappers
  import Text

  /** One story as the components read it. */
  datatype StoryRow = StoryRow(id: string, title: string, status: string, priority: int, duration: Option<int>)

  // ---------------------------------------------------------------------
  // Duration texts
  // ---------------------------------------------------------------------

  /**
   * The text both `formatDuration` variants give a number of seconds:
   * "<secs>s" under a minute, "<mins>m <secs>s" otherwise, with minutes
   * rounded down and the seconds the JavaScript remainder by 60.
   */
  function MinutesSeconds(seconds: int): string {
    var mins := seconds / 60;
    var secs := Text.JsRemainder(seconds, 60);
    if mins == 0 then Text.IntToString(secs) + "s"
    else Text.IntToString(mins) + "m " + Text.IntToString(secs) + "s"
  }

  /** `formatDuration` of the progress summary: "--" when there is no duration. */
  function SummaryDuration(seconds: Option<int>): (text: string)
    ensures seconds.None? ==> text == "--"
    ensures seconds.Some? ==> text == MinutesSeconds(seconds.value)
  {
    match seconds
    case None => "--"
    case Some(s) => MinutesSeconds(s)
  }

  /** `formatDuration` of the story list: no text for a missing or zero duration. */
  function StoryDuration(seconds: Option<int>): (text: Option<string>)
    ensures text.None? <==> seconds.None? || seconds.value == 0
    ensures text.Some? ==> text.value == MinutesSeconds(seconds.value)
  {
    if seconds.None? || seconds.value == 0 then None else Some(MinutesSeconds(seconds.value))
  }

  /** Under a minute the text is the seconds; from a minute on, whole minutes and the seconds left over, below 60. */
  lemma MinutesSecondsShape(s: nat)
    ensures s < 60 ==> MinutesSeconds(s) == Text.NatToString(s) + "s"
    ensures s >= 60 ==>
      s / 60 >= 1 && s % 60 < 60
      && MinutesSeconds(s) == Text.NatToString(s / 60) + "m " + Text.NatToString(s % 60) + "s"
  {
  }

  /** The marker after a head that does not hold it is the first occurrence of the marker. */
  lemma FirstMarker(x: string, y: string, c: char)
    requires c !in x
    ensures (x + [c] + y)[|x|] == c
    ensures forall i :: 0 <= i < |x| ==> (x + [c] + y)[i] != c
  {
  }

  /** Cutting two equal texts at the first occurrence of a marker absent from both heads. */
  lemma SplitAtMarker(x1: string, y1: string, x2: string, y2: string, c: char)
    requires c !in x1 && c !in x2
    requires x1 + [c] + y1 == x2 + [c] + y2
    ensures x1 == x2 && y1 == y2
  {
    var w := x1 + [c] + y1;
    FirstMarker(x1, y1, c);
    FirstMarker(x2, y2, c);
    assert |x1| == |x2|;
    assert x1 == w[..|x1|] == x2;
    assert y1 == w[|x1| + 1..] == y2;
  }

  /** Regrouping a minutes text around its 'm'. */
  lemma MinutesRegrouped(m: string, r: string)
    ensures m + "m " + r + "s" == m + ['m'] + (" " + r + "s")
  {
    assert "m " == ['m'] + " ";
  }

  lemma DigitsHaveNo(s: string, c: char)
    requires Text.AllDigits(s) && !Text.IsDigit(c)
    ensures c !in s
  {
  }

  /** The text holds a space exactly when it has a minutes part. */
  lemma SpaceMarksMinutes(s: nat)
    ensures ' ' in MinutesSeconds(s) <==> s >= 60
  {
    MinutesSecondsShape(s);
    if s >= 60 {
      assert MinutesSeconds(s)[|Text.NatToString(s / 60)| + 1] == ' ';
    } else {
      DigitsHaveNo(Text.NatToString(s), ' ');
    }
  }

  /** Different durations give different texts: the text determines the number of seconds. */
  lemma MinutesSecondsInjective(a: nat, b: nat)
    requires MinutesSeconds(a) == MinutesSeconds(b)
    ensures a == b
  {
    MinutesSecondsShape(a);
    MinutesSecondsShape(b);
    SpaceMarksMinutes(a);
    SpaceMarksMinutes(b);
    var t := MinutesSeconds(a);
    if a < 60 {
      var na, nb := Text.NatToString(a), Text.NatToString(b);
      assert na == t[..|t| - 1] == nb;
      Text.NatToStringInjective(a, b);
    } else {
      var ma, mb := Text.NatToString(a / 60), Text.NatToString(b / 60);
      var ra, rb := Text.NatToString(a % 60), Text.NatToString(b % 60);
      DigitsHaveNo(ma, 'm');
      DigitsHaveNo(mb, 'm');
      MinutesRegrouped(ma, ra);
      MinutesRegrouped(mb, rb);
      SplitAtMarker(ma, " " + ra + "s", mb, " " + rb + "s", 'm');
      assert ra == (" " + ra + "s")[1..|ra| + 1];
      assert rb == (" " + rb + "s")[1..|rb| + 1];
      Text.NatToStringInjective(a / 60, b / 60);
      Text.NatToStringInjective(a % 60, b % 60);
    }
  }

  /**
   * The two variants agree except at zero, which the summary shows as "0s"
   * and the story list not at all, and at a missing duration, "--" against
   * nothing.
   */
  lemma DurationVariants(seconds: Option<int>)
    ensures seconds == Some(0) ==> SummaryDuration(seconds) == "0s" && StoryDuration(seconds).None?
    ensures seconds.None? ==> SummaryDuration(seconds) == "--" && StoryDuration(seconds).None?
    ensures seconds.Some? && seconds.value != 0 ==> StoryDuration(seconds) == Some(SummaryDuration(seconds))
  {
  }

  // ---------------------------------------------------------------------
  // Progress
  // ---------------------------------------------------------------------

  /** A story counts as completed when it passed or failed. */
  predicate IsCompleted(status: string) {
    status == "passed" || status == "failed"
  }

  /** The number of completed stories (`stories.filter(...).length`). */
  function CompletedCount(stories: seq<StoryRow>): (n: nat)
    ensures n <= |stories|
  {
    if |stories| == 0 then 0
    else CompletedCount(stories[..|stories| - 1]) + (if IsCompleted(stories[|stories| - 1].status) then 1 else 0)
  }

  /** The count is zero exactly when no story is completed, and the length exactly when all are. */
  lemma {:induction false} CompletedCountExtremes(stories: seq<StoryRow>)
    ensures CompletedCount(stories) == 0 <==> forall i :: 0 <= i < |stories| ==> !IsCompleted(stories[i].status)
    ensures CompletedCount(stories) == |stories| <==> forall i :: 0 <= i < |stories| ==> IsCompleted(stories[i].status)
  {
    if |stories| > 0 {
      var init := stories[..|stories| - 1];
      CompletedCountExtremes(init);
      assert forall i :: 0 <= i < |init| ==> init[i] == stories[i];
    }
  }

  /** `progress`: the completed share in percent, 0 for an empty list. */
  function Progress(stories: seq<StoryRow>): real {
    if |stories| > 0 then (CompletedCount(stories) as real / |stories| as real) * 100.0 else 0.0
  }

  /** A share of a positive whole lies in [0, 1]; it is 0 only for nothing and 1 only for everything. */
  lemma ShareBounds(part: nat, whole: nat)
    requires part <= whole && whole > 0
    ensures 0.0 <= part as real / whole as real <= 1.0
    ensures part as real / whole as real == 0.0 <==> part == 0
    ensures part as real / whole as real == 1.0 <==> part == whole
  {
    var q := part as real / whole as real;
    assert q * whole as real == part as real;
  }

  /** Progress lies between 0 and 100; it is 0 exactly when nothing is completed and 100 exactly when everything is. */
  lemma ProgressRange(stories: seq<StoryRow>)
    ensures 0.0 <= Progress(stories) <= 100.0
    ensures Progress(stories) == 0.0 <==> forall i :: 0 <= i < |stories| ==> !IsCompleted(stories[i].status)
    ensures Progress(stories) == 100.0 <==>
      |stories| > 0 && forall i :: 0 <= i < |stories| ==> IsCompleted(stories[i].status)
  {
    CompletedCountExtremes(stories);
    if |stories| > 0 {
      ShareBounds(CompletedCount(stories), |stories|);
    }
  }

  /**
   * `estimateRemaining`: nothing before the first completion or once every
   * story is done; otherwise the stories left times the average time per
   * completed story, rounded to the nearest second (`Math.round`).
   */
  function EstimateRemaining(completed: nat, total: nat, elapsedSeconds: int): (r: Option<int>)
    ensures r.None? <==> completed == 0 || completed >= total
  {
    if completed == 0 || completed >= total then None
    else
      var average := elapsedSeconds as real / completed as real;
      var remaining := (total - completed) as real * average;
      Some((remaining + 0.5).Floor)
  }

  /** With a non-negative elapsed time the estimate is non-negative, and it never falls as time goes on. */
  lemma EstimateRemainingMonotone(completed: nat, total: nat, e1: int, e2: int)
    requires 0 < completed < total && 0 <= e1 <= e2
    ensures EstimateRemaining(completed, total, e1).value >= 0
    ensures EstimateRemaining(completed, total, e1).value <= EstimateRemaining(completed, total, e2).value
  {
    var c, left := completed as real, (total - completed) as real;
    var a1, a2 := e1 as real / c, e2 as real / c;
    QuotientMono(e1 as real, e2 as real, c);
    ProductMono(left, 0.0, a1);
    ProductMono(left, a1, a2);
  }

  lemma QuotientMono(x: real, y: real, c: real)
    requires 0.0 <= x <= y && c > 0.0
    ensures 0.0 <= x / c <= y / c
  {
  }

  lemma ProductMono(k: real, x: real, y: real)
    requires k >= 0.0 && x <= y
    ensures k * x <= k * y
  {
  }

  // ---------------------------------------------------------------------
  // The story list
  // ---------------------------------------------------------------------

  /** The look of a status dot: its colour class and whether it pulses. */
  datatype DotConfig = DotConfig(color: string, pulse: bool)

  /** `statusConfig`: the dot of each known status. */
  const StatusTable: map<string, DotConfig> := map[
    "pending" := DotConfig("bg-zinc-500", false),
    "running" := DotConfig("bg-amber-500", true),
    "passed" := DotConfig("bg-green-500", false),
    "failed" := DotConfig("bg-red-500", false),
    "blocked" := DotConfig("bg-zinc-400", false)]

  /** `statusConfig[status] || statusConfig.pending`: every status gets a dot from the table. */
  function StatusConfig(status: string): (config: DotConfig)
    ensures config in StatusTable.Values
  {
    if status in StatusTable then StatusTable[status] else StatusTable["pending"]
  }

  /**
   * Only a running story's dot pulses, an unknown status looks pending, and
   * each known status has a colour of its own.
   */
  lemma StatusDots(s1: string, s2: string)
    ensures StatusConfig(s1).pulse <==> s1 == "running"
    ensures s1 !in StatusTable ==> StatusConfig(s1) == StatusConfig("pending")
    ensures s1 in StatusTable && s2 in StatusTable && StatusConfig(s1) == StatusConfig(s2) ==> s1 == s2
  {
  }

  /** The duration tooltip of a story: only for a completed story whose duration gives a text. */
  function Tooltip(story: StoryRow): (text: Option<string>)
    ensures text.Some? ==> IsCompleted(story.status)
  {
    if IsCompleted(story.status) then StoryDuration(story.duration) else None
  }

  /** A story shows a tooltip exactly when it is completed and has a non-zero duration. */
  lemma TooltipShown(story: StoryRow)
    ensures Tooltip(story).Some? <==> IsCompleted(story.status) && story.duration.Some? && story.duration.value != 0
    ensures Tooltip(story).Some? ==> Tooltip(story).value == MinutesSeconds(story.duration.value)
  {
  }
}
