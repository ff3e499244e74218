/** The stand-alone page (script.js): a gallery of 364 day images, one shown at a
    time, stepped by buttons, arrow keys, swipes, a timeline and an autoplay timer.
    The page's module-level variables become the fields of SkyArchive; the image
    elements of the gallery become a sequence of DayImage values. */
module Archive {
  import opened Wrappers
  import Js

  /** Number of days in the archive. */
  const TotalDays: int := 364

  /** The image numbers that exist on disk; every day shows one of them. */
  const AvailableImages: seq<int> := [1, 2, 3, 4, 5, 6, 7, 8]

  /** A swipe moves only when the finger travelled more than this many pixels. */
  const SwipeThreshold: int := 50

  /** Text of the play button while stopped and while playing. */
  const PlayLabel: string := "▶"
  const PauseLabel: string := "❚❚"

  // ---------------------------------------------------------------------------
  // Image selection

  /** Season of a day: 0 spring, 1 summer, 2 autumn, 3 winter (4 and up only
      past the end of the year). */
  function SeasonOf(dayIndex: nat): (s: nat)
    ensures s * 91 <= dayIndex < s * 91 + 91
  {
    dayIndex / 91
  }

  /** Every day of the year falls in one of the four seasons, so the fallback
      branch of the image selection is never taken within the year. */
  lemma SeasonInYear(dayIndex: nat)
    requires dayIndex < TotalDays
    ensures SeasonOf(dayIndex) <= 3
  {
  }

  /** Position in AvailableImages that the image selection reads for a day. */
  function PatternIndex(dayIndex: nat): (k: int)
    ensures 0 <= k < |AvailableImages|
  {
    var count := |AvailableImages|;
    var baseIndex := dayIndex % count;
    var season := SeasonOf(dayIndex);
    if season == 0 then
      baseIndex
    else if season == 1 then
      count - 1 - baseIndex
    else if season == 2 then
      if dayIndex % 2 == 0 then baseIndex else count - 1 - baseIndex
    else if season == 3 then
      var weekday := dayIndex % 7;
      if weekday < 3 then weekday % count else 3 + (weekday - 3) % (count - 3)
    else
      baseIndex
  }

  /** Image number shown for a day (the season-dependent pattern of the gallery). */
  function GenerateImagePattern(dayIndex: nat): (img: int)
    ensures img in AvailableImages
    ensures 1 <= img <= |AvailableImages|
  {
    AvailableImages[PatternIndex(dayIndex)]
  }

  /** Spring runs through the images in order. */
  lemma SpringImage(dayIndex: nat)
    requires dayIndex < 91
    ensures GenerateImagePattern(dayIndex) == dayIndex % 8 + 1
  {
  }

  /** Summer runs through them in reverse. */
  lemma SummerImage(dayIndex: nat)
    requires 91 <= dayIndex < 182
    ensures GenerateImagePattern(dayIndex) == 8 - dayIndex % 8
  {
  }

  /** Autumn alternates: even days as in spring, odd days as in summer. */
  lemma AutumnImage(dayIndex: nat)
    requires 182 <= dayIndex < 273
    ensures dayIndex % 2 == 0 ==> GenerateImagePattern(dayIndex) == dayIndex % 8 + 1
    ensures dayIndex % 2 == 1 ==> GenerateImagePattern(dayIndex) == 8 - dayIndex % 8
  {
  }

  /** Winter follows the day of the week: the first three weekdays show images
      1..3, the last four show images 4..7, and image 8 never appears. */
  lemma WinterImage(dayIndex: nat)
    requires 273 <= dayIndex < TotalDays
    ensures dayIndex % 7 < 3 ==> GenerateImagePattern(dayIndex) == dayIndex % 7 + 1
    ensures dayIndex % 7 >= 3 ==> 4 <= GenerateImagePattern(dayIndex) <= 7
    ensures GenerateImagePattern(dayIndex) == dayIndex % 7 + 1
  {
  }

  /** Past the end of the year the fallback cycles like spring. */
  lemma FallbackImage(dayIndex: nat)
    requires dayIndex >= TotalDays
    ensures GenerateImagePattern(dayIndex) == dayIndex % 8 + 1
  {
  }

  // ---------------------------------------------------------------------------
  // Text the page shows

  /** Source of the image element of a day. */
  function ImageSrc(img: int): (src: string)
    ensures |src| >= 16 && src[..11] == "images/day_" && src[|src| - 4..] == ".JPG"
  {
    "images/day_" + Js.IntToString(img) + ".JPG"
  }

  /** The file name of an image names its number: the characters between the
      prefix and the extension are digits that read back as the number. */
  lemma ImageSrcNumber(img: nat)
    ensures var src := ImageSrc(img);
      && (forall i :: 11 <= i < |src| - 4 ==> Js.IsDigit(src[i]))
      && Js.ParseDigits(src[11..|src| - 4]) == img
  {
    var number := Js.IntToString(img);
    assert ImageSrc(img)[11..|ImageSrc(img)| - 4] == number;
  }

  /** Alternative text of the image element of a 0-based day: "Den " and the
      1-based day number. */
  function AltText(dayIndex: nat): (text: string)
    ensures |text| >= 5 && text[..4] == "Den "
  {
    "Den " + Js.NatToString(dayIndex + 1)
  }

  /** The alternative text names the day: the characters after "Den " are
      digits that read back as the 1-based day. */
  lemma AltTextNumber(dayIndex: nat)
    ensures var text := AltText(dayIndex);
      && (forall i :: 4 <= i < |text| ==> Js.IsDigit(text[i]))
      && Js.ParseDigits(text[4..]) == dayIndex + 1
  {
    Js.ParseNatToString(dayIndex + 1);
    assert AltText(dayIndex)[4..] == Js.NatToString(dayIndex + 1);
  }

  /** Text of the day counter for a 0-based day: the 1-based day number. */
  function CounterText(dayIndex: nat): (text: string)
    ensures |text| >= 5 && text[..4] == "DEN "
    ensures forall i :: 4 <= i < |text| ==> Js.IsDigit(text[i])
    ensures Js.ParseDigits(text[4..]) == dayIndex + 1
  {
    var digits := Js.NatToString(dayIndex + 1);
    Js.ParseNatToString(dayIndex + 1);
    assert ("DEN " + digits)[4..] == digits;
    "DEN " + digits
  }

  // ---------------------------------------------------------------------------
  // Day arithmetic of the handlers

  /** The day a jump to `index` lands on. */
  function ClampDay(index: int): (d: int)
    ensures 0 <= d < TotalDays
    ensures 0 <= index < TotalDays ==> d == index
  {
    if index < 0 then 0 else if index >= TotalDays then TotalDays - 1 else index
  }

  /** A jump lands on the valid day nearest to the requested one. */
  lemma ClampDayNearest(index: int, day: int)
    requires 0 <= day < TotalDays
    ensures Js.Dist(ClampDay(index), index) <= Js.Dist(day, index)
  {
  }

  /** Day after a step back (previous button, left arrow, right swipe). */
  function StepBack(d: int): (r: int)
    ensures 0 <= d < TotalDays ==> 0 <= r < TotalDays
    ensures r == d || r == d - 1
    ensures r == d <==> d <= 0
  {
    if d > 0 then d - 1 else d
  }

  /** Day after a step forward (next button, right arrow, left swipe). */
  function StepForward(d: int): (r: int)
    ensures 0 <= d < TotalDays ==> 0 <= r < TotalDays
    ensures r == d || r == d + 1
    ensures r == d <==> d >= TotalDays - 1
  {
    if d < TotalDays - 1 then d + 1 else d
  }

  /** Day after one autoplay tick: forward, wrapping from the last day to the first. */
  function AutoplayNext(d: int): (r: int)
    ensures 0 <= d < TotalDays ==> 0 <= r < TotalDays && r == (d + 1) % TotalDays
  {
    if d < TotalDays - 1 then d + 1 else 0
  }

  /** Day a finished swipe leads to, for a horizontal travel of `deltaX` pixels. */
  function SwipeTarget(d: int, deltaX: int): (r: int)
    ensures -SwipeThreshold <= deltaX <= SwipeThreshold ==> r == d
    ensures deltaX > SwipeThreshold ==> r == StepBack(d)
    ensures deltaX < -SwipeThreshold ==> r == StepForward(d)
  {
    if deltaX > SwipeThreshold || deltaX < -SwipeThreshold then
      if deltaX > 0 then StepBack(d) else StepForward(d)
    else
      d
  }

  /** Day after `n` autoplay ticks. */
  function AutoplayRun(d: int, n: nat): int {
    if n == 0 then d else AutoplayNext(AutoplayRun(d, n - 1))
  }

  /** Autoplay walks the year cyclically: `n` ticks advance by `n` modulo the year. */
  lemma {:induction false} AutoplayRunCycles(d: int, n: nat)
    requires 0 <= d < TotalDays
    ensures AutoplayRun(d, n) == (d + n) % TotalDays
  {
    if n > 0 {
      AutoplayRunCycles(d, n - 1);
      Js.ModSucc(d + n - 1, TotalDays);
    }
  }

  /** A full year of autoplay ticks returns to the starting day, and every day
      is reached from every other. */
  lemma AutoplayVisitsEveryDay(d: int, target: int)
    requires 0 <= d < TotalDays && 0 <= target < TotalDays
    ensures AutoplayRun(d, TotalDays) == d
    ensures AutoplayRun(d, (target - d + TotalDays) % TotalDays) == target
  {
    AutoplayRunCycles(d, TotalDays);
    ModBelowTwoYears(d + TotalDays);
    var n := target - d + TotalDays;
    ModBelowTwoYears(n);
    AutoplayRunCycles(d, n % TotalDays);
    ModBelowTwoYears(d + n % TotalDays);
  }

  lemma ModBelowTwoYears(x: int)
    requires 0 <= x < 2 * TotalDays
    ensures x % TotalDays == if x < TotalDays then x else x - TotalDays
  {
  }

  /** Day after `n` forward steps. */
  function StepForwardRun(d: int, n: nat): int {
    if n == 0 then d else StepForward(StepForwardRun(d, n - 1))
  }

  /** Forward steps stop at the last day and stay there. */
  lemma {:induction false} StepForwardRunSaturates(d: int, n: nat)
    requires 0 <= d < TotalDays
    ensures StepForwardRun(d, n) == if d + n < TotalDays then d + n else TotalDays - 1
  {
    if n > 0 {
      StepForwardRunSaturates(d, n - 1);
    }
  }

  // ---------------------------------------------------------------------------
  // The page state

  /** One image element of the gallery: its source and its alternative text.
      Whether it is displayed is kept beside it, in SkyArchive.displayed. */
  datatype DayImage = DayImage(src: string, alt: string)

  /** The element the gallery holds for a day. */
  function ImageFor(dayIndex: nat): DayImage {
    DayImage(ImageSrc(GenerateImagePattern(dayIndex)), AltText(dayIndex))
  }

  /** Each element names the file of the day's image and reads "Den" and the
      1-based day number. */
  lemma ImageForContents(dayIndex: nat)
    ensures var e := ImageFor(dayIndex);
      && |e.src| >= 16 && e.src[..11] == "images/day_" && e.src[|e.src| - 4..] == ".JPG"
      && (forall i :: 11 <= i < |e.src| - 4 ==> Js.IsDigit(e.src[i]))
      && Js.ParseDigits(e.src[11..|e.src| - 4]) == GenerateImagePattern(dayIndex)
      && |e.alt| >= 5 && e.alt[..4] == "Den "
      && (forall i :: 4 <= i < |e.alt| ==> Js.IsDigit(e.alt[i]))
      && Js.ParseDigits(e.alt[4..]) == dayIndex + 1
  {
    ImageSrcNumber(GenerateImagePattern(dayIndex));
    AltTextNumber(dayIndex);
  }

  /** One element per day, each with that day's image and text. */
  ghost predicate Built(images: seq<DayImage>) {
    && |images| == TotalDays
    && forall i :: 0 <= i < TotalDays ==> images[i] == ImageFor(i)
  }

  class SkyArchive {
    var currentImageIndex: int
    var isAutoplay: bool
    var isPlaying: bool
    /** Handle of the running autoplay interval, if any. */
    var autoplayInterval: Option<nat>
    var isDraggingTimeline: bool
    var touchStartX: int
    var playLabel: string
    /** The image elements of the gallery, in day order. */
    var images: seq<DayImage>
    /** Whether each element is displayed (its `display` style is not "none"). */
    var displayed: seq<bool>
    /** Value of the shader's `u_day` uniform. */
    var dayUniform: int
    /** Text of the day counter. */
    var counter: string
    /** Interval handles the browser is running for this page. */
    ghost var liveTimers: set<nat>

    /** Autoplay and the play flag move together; exactly one interval runs
        while playing and none otherwise; the button label shows the state. */
    ghost predicate TimersConsistent()
      reads this
    {
      && isPlaying == isAutoplay
      && (isAutoplay <==> autoplayInterval.Some?)
      && (autoplayInterval.Some? ==> autoplayInterval.value > 0)
      && liveTimers == (if autoplayInterval.Some? then {autoplayInterval.value} else {})
      && playLabel == (if isAutoplay then PauseLabel else PlayLabel)
    }

    /** The gallery holds one element per day with that day's image. */
    ghost predicate GalleryBuilt()
      reads this
    {
      Built(images) && |displayed| == |images|
    }

    /** Day `index` is on screen: its element alone is displayed, and the
        counter and the shader show it. */
    ghost predicate Shows(index: int)
      reads this
    {
      && 0 <= index < |images|
      && dayUniform == index
      && counter == CounterText(index)
      && forall j :: 0 <= j < |displayed| ==> displayed[j] == (j == index)
    }

    ghost predicate Valid()
      reads this
    {
      && TimersConsistent()
      && GalleryBuilt()
      && 0 <= currentImageIndex < TotalDays
      && Shows(currentImageIndex)
    }

    /** Page start-up: initial flags, the gallery, then the first day shown. */
    constructor ()
      ensures Valid()
      ensures currentImageIndex == 0 && !isAutoplay && !isDraggingTimeline && touchStartX == 0
    {
      currentImageIndex := 0;
      isAutoplay := false;
      autoplayInterval := None;
      isDraggingTimeline := false;
      isPlaying := false;
      touchStartX := 0;
      playLabel := PlayLabel;
      images := [];
      displayed := [];
      dayUniform := 0;
      counter := "";
      liveTimers := {};
      new;
      InitImageGallery();
      ShowImage(currentImageIndex);
    }

    /** Builds one hidden image element per day, in day order. */
    method InitImageGallery()
      modifies this`images, this`displayed
      ensures GalleryBuilt()
      ensures forall j :: 0 <= j < |displayed| ==> !displayed[j]
    {
      images, displayed := [], [];
      var i := 0;
      while i < TotalDays
        invariant 0 <= i <= TotalDays && |images| == |displayed| == i
        invariant forall j :: 0 <= j < i ==> images[j] == ImageFor(j)
        invariant forall j :: 0 <= j < i ==> !displayed[j]
      {
        var img := GenerateImagePattern(i);
        var element := DayImage(ImageSrc(img), AltText(i));
        assert element == ImageFor(i);
        images := images + [element];
        displayed := displayed + [false];
        i := i + 1;
      }
    }

    /** Shows day `index`, clamped into the year: hides every element, shows the
        chosen one and updates the counter, the shader uniform and the index. */
    method ShowImage(index: int)
      requires TimersConsistent() && GalleryBuilt()
      modifies this`currentImageIndex, this`displayed, this`dayUniform, this`counter
      ensures Valid()
      ensures currentImageIndex == ClampDay(index)
    {
      var day := index;
      if day < 0 {
        day := 0;
      } else if day >= TotalDays {
        day := TotalDays - 1;
      }
      var j := 0;
      while j < |displayed|
        invariant 0 <= j <= |displayed| == |images|
        invariant forall k :: 0 <= k < j ==> !displayed[k]
      {
        displayed := displayed[j := false];
        j := j + 1;
      }
      if day < |displayed| {
        displayed := displayed[day := true];
      }
      currentImageIndex := day;
      dayUniform := day;
      counter := CounterText(day);
    }

    /** Previous button: one day back, nothing at the first day. */
    method PrevClick()
      requires Valid()
      modifies this`currentImageIndex, this`displayed, this`dayUniform, this`counter
      ensures Valid()
      ensures currentImageIndex == StepBack(old(currentImageIndex))
      ensures old(currentImageIndex) == 0 ==> unchanged(this)
    {
      if currentImageIndex > 0 {
        currentImageIndex := currentImageIndex - 1;
        ShowImage(currentImageIndex);
      }
    }

    /** Next button: one day forward, nothing at the last day. */
    method NextClick()
      requires Valid()
      modifies this`currentImageIndex, this`displayed, this`dayUniform, this`counter
      ensures Valid()
      ensures currentImageIndex == StepForward(old(currentImageIndex))
      ensures old(currentImageIndex) == TotalDays - 1 ==> unchanged(this)
    {
      if currentImageIndex < TotalDays - 1 {
        currentImageIndex := currentImageIndex + 1;
        ShowImage(currentImageIndex);
      }
    }

    /** Starts autoplay with the interval the browser assigned, `handle`,
        clearing any interval still recorded. */
    method StartAutoplay(handle: nat)
      requires Valid() && handle > 0
      modifies this`isAutoplay, this`isPlaying, this`playLabel, this`autoplayInterval, this`liveTimers
      ensures Valid()
      ensures isAutoplay && isPlaying && autoplayInterval == Some(handle) && liveTimers == {handle}
    {
      isAutoplay := true;
      isPlaying := true;
      playLabel := PauseLabel;
      if autoplayInterval.Some? {
        liveTimers := liveTimers - {autoplayInterval.value};
      }
      autoplayInterval := Some(handle);
      liveTimers := liveTimers + {handle};
    }

    /** Stops autoplay and clears its interval. */
    method StopAutoplay()
      requires Valid()
      modifies this`isAutoplay, this`isPlaying, this`playLabel, this`autoplayInterval, this`liveTimers
      ensures Valid()
      ensures !isAutoplay && !isPlaying && autoplayInterval == None && liveTimers == {}
    {
      isAutoplay := false;
      isPlaying := false;
      playLabel := PlayLabel;
      if autoplayInterval.Some? {
        liveTimers := liveTimers - {autoplayInterval.value};
        autoplayInterval := None;
      }
    }

    /** Play button and space bar: stops a running autoplay, starts a stopped one. */
    method ToggleAutoplay(handle: nat)
      requires Valid() && handle > 0
      modifies this`isAutoplay, this`isPlaying, this`playLabel, this`autoplayInterval, this`liveTimers
      ensures Valid()
      ensures isAutoplay == !old(isAutoplay) && isPlaying == isAutoplay
      ensures isAutoplay ==> autoplayInterval == Some(handle) && liveTimers == {handle}
      ensures !isAutoplay ==> autoplayInterval == None && liveTimers == {}
    {
      if isAutoplay {
        StopAutoplay();
      } else {
        StartAutoplay(handle);
      }
    }

    /** One firing of the autoplay interval: the next day, wrapping to the first. */
    method AutoplayTick()
      requires Valid() && isAutoplay
      modifies this`currentImageIndex, this`displayed, this`dayUniform, this`counter
      ensures Valid()
      ensures currentImageIndex == AutoplayNext(old(currentImageIndex))
    {
      if currentImageIndex < TotalDays - 1 {
        currentImageIndex := currentImageIndex + 1;
      } else {
        currentImageIndex := 0;
      }
      ShowImage(currentImageIndex);
    }

    /** Keyboard: the arrows step, the space bar toggles autoplay (using `handle`
        if it starts), every other key is ignored. */
    method KeyDown(key: string, handle: nat)
      requires Valid() && handle > 0
      modifies this`currentImageIndex, this`displayed, this`dayUniform, this`counter
      modifies this`isAutoplay, this`isPlaying, this`playLabel, this`autoplayInterval, this`liveTimers
      ensures Valid()
      ensures key == "ArrowLeft" ==> currentImageIndex == StepBack(old(currentImageIndex))
      ensures key == "ArrowRight" ==> currentImageIndex == StepForward(old(currentImageIndex))
      ensures key == " " ==> isAutoplay == !old(isAutoplay) && currentImageIndex == old(currentImageIndex)
      ensures key == " " && isAutoplay ==> autoplayInterval == Some(handle) && liveTimers == {handle}
      ensures key == " " && !isAutoplay ==> autoplayInterval == None && liveTimers == {}
      ensures key != " " ==> isAutoplay == old(isAutoplay) && liveTimers == old(liveTimers)
      ensures key != "ArrowLeft" && key != "ArrowRight" && key != " " ==> unchanged(this)
    {
      if key == "ArrowLeft" {
        PrevClick();
      } else if key == "ArrowRight" {
        NextClick();
      } else if key == " " {
        ToggleAutoplay(handle);
      }
    }

    /** A finger touches the gallery at horizontal position `x`. */
    method TouchStart(x: int)
      modifies this`touchStartX
      ensures touchStartX == x
    {
      touchStartX := x;
    }

    /** The finger leaves at `endX`: a long enough swipe to the right steps back,
        to the left steps forward; a short one does nothing. */
    method TouchEnd(endX: int)
      requires Valid()
      modifies this`currentImageIndex, this`displayed, this`dayUniform, this`counter
      ensures Valid()
      ensures currentImageIndex == SwipeTarget(old(currentImageIndex), endX - touchStartX)
      ensures -SwipeThreshold <= endX - touchStartX <= SwipeThreshold ==> unchanged(this)
    {
      var deltaX := endX - touchStartX;
      if deltaX > SwipeThreshold || deltaX < -SwipeThreshold {
        if deltaX > 0 {
          PrevClick();
        } else {
          NextClick();
        }
      }
    }

    /** Click on the timeline at the day position `index` (the pointer's fraction
        of the timeline's width times the number of days, rounded down). */
    method TimelineClick(index: int)
      requires Valid()
      modifies this`currentImageIndex, this`displayed, this`dayUniform, this`counter
      ensures Valid()
      ensures !isDraggingTimeline ==> currentImageIndex == ClampDay(index)
      ensures isDraggingTimeline ==> unchanged(this)
    {
      if !isDraggingTimeline {
        ShowImage(index);
      }
    }

    /** Pressing on the timeline starts a drag and jumps to the day under the pointer. */
    method TimelineMouseDown(index: int)
      requires Valid()
      modifies this`isDraggingTimeline, this`currentImageIndex, this`displayed, this`dayUniform, this`counter
      ensures Valid()
      ensures isDraggingTimeline && currentImageIndex == ClampDay(index)
    {
      isDraggingTimeline := true;
      ShowImage(index);
    }

    /** Moving the pointer jumps to the day under it while a drag is on. */
    method TimelineMouseMove(index: int)
      requires Valid()
      modifies this`currentImageIndex, this`displayed, this`dayUniform, this`counter
      ensures Valid()
      ensures isDraggingTimeline ==> currentImageIndex == ClampDay(index)
      ensures !isDraggingTimeline ==> unchanged(this)
    {
      if isDraggingTimeline {
        ShowImage(index);
      }
    }

    /** Releasing the pointer ends the drag. */
    method TimelineMouseUp()
      modifies this`isDraggingTimeline
      ensures !isDraggingTimeline
    {
      isDraggingTimeline := false;
    }
  }
}
