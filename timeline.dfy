/** The timeline of the React application (src/components/Timeline.jsx):
    dragging and clicking report a day to the application, and twelve month
    markers are drawn along it. Pixel geometry enters as integers: the rounded
    day offset of a drag and the rounded-down day under a click. */
module TimelineView {
  import opened Wrappers
  import Js

  /** The pixels a click may drift from the press before it counts as a drag. */
  const ClickTolerance: int := 5

  /** `Math.max(0, Math.min(totalDays - 1, day))`. */
  function ClampToTimeline(day: int, totalDays: int): (d: int)
    ensures totalDays >= 1 ==> 0 <= d <= totalDays - 1
    ensures 0 <= day <= totalDays - 1 ==> d == day
  {
    var upper := if totalDays - 1 <= day then totalDays - 1 else day;
    if 0 <= upper then upper else 0
  }

  /** The reported day is the valid day nearest to the requested one. */
  lemma ClampToTimelineNearest(day: int, totalDays: int, other: int)
    requires 0 <= other <= totalDays - 1
    ensures Js.Dist(ClampToTimeline(day, totalDays), day) <= Js.Dist(other, day)
  {
  }

  /** The horizontal position of a mouse or touch event
      (`e.clientX || e.touches[0].clientX || 0`); an absent or zero coordinate
      falls through to the next one. */
  function PointerX(mouseX: Option<int>, touchX: Option<int>): (x: int)
    ensures mouseX.Some? && mouseX.value != 0 ==> x == mouseX.value
    ensures mouseX.Some? && touchX.None? ==> x == mouseX.value
    ensures mouseX.None? && touchX.Some? ==> x == touchX.value
    ensures mouseX.None? && touchX.None? ==> x == 0
    ensures mouseX == Some(0) && touchX.Some? ==> x == touchX.value
  {
    if mouseX.Some? && mouseX.value != 0 then mouseX.value
    else if touchX.Some? && touchX.value != 0 then touchX.value
    else 0
  }

  /** Days of the year at which the month markers stand. */
  const MonthMarkers: seq<int> := [0, 30, 59, 90, 120, 151, 181, 212, 243, 273, 304, 334]

  /** Labels of the markers, January to December. */
  const MonthLabels: seq<string> :=
    ["LED", "ÚNO", "BŘE", "DUB", "KVĚ", "ČER", "ČVC", "SRP", "ZÁŘ", "ŘÍJ", "LIS", "PRO"]

  /** Lengths of the months of a common (non-leap) year. */
  const MonthLengths: seq<int> := [31, 28, 31, 30, 31, 30, 31, 31, 30, 31, 30, 31]

  /** Day of the year on which month `m` starts, counted from 0. */
  function MonthStart(m: nat): int
    requires m <= |MonthLengths|
  {
    if m == 0 then 0 else MonthStart(m - 1) + MonthLengths[m - 1]
  }

  predicate StrictlyIncreasing(s: seq<int>) {
    forall i, j :: 0 <= i < j < |s| ==> s[i] < s[j]
  }

  /** The markers pair one-to-one with the labels, stand in strictly increasing
      order, and lie on the timeline of a 364-day year. */
  lemma MarkersWellFormed()
    ensures |MonthMarkers| == |MonthLabels| == 12
    ensures StrictlyIncreasing(MonthMarkers)
    ensures forall i :: 0 <= i < |MonthMarkers| ==> 0 <= MonthMarkers[i] <= 363
  {
  }

  /** Every marker but February's stands on the first day of its month in a
      common year; February's stands one day early. */
  lemma MarkersAgainstCalendar()
    ensures forall m :: 0 <= m < 12 && m != 1 ==> MonthMarkers[m] == MonthStart(m)
    ensures MonthMarkers[1] == 30 && MonthStart(1) == 31
  {
    assert MonthStart(1) == 31;
    assert MonthStart(2) == 59;
    assert MonthStart(3) == 90;
    assert MonthStart(4) == 120;
    assert MonthStart(5) == 151;
    assert MonthStart(6) == 181;
    assert MonthStart(7) == 212;
    assert MonthStart(8) == 243;
    assert MonthStart(9) == 273;
    assert MonthStart(10) == 304;
    assert MonthStart(11) == 334;
  }

  class Timeline {
    var isDragging: bool
    var startX: int
    var startDay: int

    constructor ()
      ensures !isDragging && startX == 0 && startDay == 0
    {
      isDragging := false;
      startX := 0;
      startDay := 0;
    }

    /** Press on the timeline: a drag starts at the pointer, from the current day. */
    method HandleMouseDown(mouseX: Option<int>, touchX: Option<int>, currentDay: int)
      modifies this
      ensures isDragging && startX == PointerX(mouseX, touchX) && startDay == currentDay
    {
      isDragging := true;
      startX := PointerX(mouseX, touchX);
      startDay := currentDay;
    }

    /** Pointer move: while dragging (and mounted), reports the start day moved by
        `dayDelta` and clamped onto the timeline; otherwise reports nothing.
        `dayDelta` is the drag distance as a fraction of the timeline's width
        times the number of days, rounded. */
    method HandleMouseMove(mounted: bool, dayDelta: int, totalDays: int) returns (report: Option<int>)
      ensures report.Some? <==> isDragging && mounted
      ensures report.Some? ==> report.value == ClampToTimeline(startDay + dayDelta, totalDays)
      ensures report.Some? && totalDays >= 1 ==> 0 <= report.value <= totalDays - 1
      ensures report.Some? && dayDelta == 0 && 0 <= startDay < totalDays ==> report.value == startDay
    {
      if !isDragging || !mounted {
        return None;
      }
      var newDay := ClampToTimeline(startDay + dayDelta, totalDays);
      report := Some(newDay);
    }

    /** Pointer release: the drag ends. */
    method HandleMouseUp()
      modifies this`isDragging
      ensures !isDragging
    {
      isDragging := false;
    }

    /** Click at horizontal position `clientX`, over day `clickDay` (the click's
        fraction of the timeline's width times the number of days, rounded
        down): reported, clamped onto the timeline, only when the pointer
        stayed within the click tolerance of the press. */
    method HandleClick(mounted: bool, clientX: int, clickDay: int, totalDays: int) returns (report: Option<int>)
      ensures report.Some? <==> mounted && Js.Dist(clientX, startX) < ClickTolerance
      ensures report.Some? ==> report.value == ClampToTimeline(clickDay, totalDays)
      ensures report.Some? && totalDays >= 1 ==> 0 <= report.value <= totalDays - 1
    {
      if !mounted {
        return None;
      }
      var drift := clientX - startX;
      if -ClickTolerance < drift < ClickTolerance {
        report := Some(ClampToTimeline(clickDay, totalDays));
      } else {
        report := None;
      }
    }
  }
}
