/** The glass navigation panel (src/components/GlassNavigation.jsx): play/pause,
    sound and language toggles, a season selector, and an effect that selects
    the season containing the current (1-based) day. The callbacks the panel
    invokes are returned as Notice values. */
module Navigation {
  import opened Wrappers

  /** A season of the selector; its icon is left out. */
  datatype Season = Season(id: int, name: string, color: string, gradient: string)

  const Seasons: seq<Season> := [
    Season(1, "Jaro", "#10b981", "from-emerald-500 to-green-500"),
    Season(2, "Léto", "#f59e0b", "from-amber-500 to-yellow-500"),
    Season(3, "Podzim", "#ef4444", "from-red-500 to-orange-500"),
    Season(4, "Zima", "#3b82f6", "from-blue-500 to-indigo-500")
  ]

  /** The days `start..end` (inclusive, 1-based) of the season `id`. */
  datatype DayRange = DayRange(id: int, start: int, end: int)

  /** The season table, in the order the lookup visits it (ascending ids). */
  const SeasonDays: seq<DayRange> := [
    DayRange(1, 1, 91),
    DayRange(2, 92, 183),
    DayRange(3, 184, 274),
    DayRange(4, 275, 365)
  ]

  predicate Contains(r: DayRange, day: int) {
    r.start <= day <= r.end
  }

  /** Id of the first range containing `day`, if any. */
  function FirstContaining(ranges: seq<DayRange>, day: int): (found: Option<int>)
    ensures found.Some? ==>
      exists k :: 0 <= k < |ranges| && Contains(ranges[k], day) && ranges[k].id == found.value
                  && forall j :: 0 <= j < k ==> !Contains(ranges[j], day)
    ensures found.None? <==> forall k :: 0 <= k < |ranges| ==> !Contains(ranges[k], day)
  {
    if ranges == [] then None
    else if Contains(ranges[0], day) then Some(ranges[0].id)
    else
      var rest := FirstContaining(ranges[1..], day);
      assert forall k :: 1 <= k < |ranges| ==> ranges[k] == ranges[1..][k - 1];
      rest
  }

  /** Each range is non-empty and starts the day after the previous one ends. */
  predicate Contiguous(ranges: seq<DayRange>) {
    && (forall k :: 0 <= k < |ranges| ==> ranges[k].start <= ranges[k].end)
    && (forall k :: 0 < k < |ranges| ==> ranges[k].start == ranges[k - 1].end + 1)
  }

  /** Contiguous ranges cover every day from the first start to the last end. */
  lemma {:induction false} ContiguousCovers(ranges: seq<DayRange>, day: int)
    requires Contiguous(ranges) && |ranges| > 0
    requires ranges[0].start <= day <= ranges[|ranges| - 1].end
    ensures exists k :: 0 <= k < |ranges| && Contains(ranges[k], day)
  {
    if !Contains(ranges[0], day) {
      var rest := ranges[1..];
      assert forall k :: 0 <= k < |rest| ==> rest[k] == ranges[k + 1];
      ContiguousCovers(rest, day);
      var k :| 0 <= k < |rest| && Contains(rest[k], day);
      assert Contains(ranges[k + 1], day);
    }
  }

  /** In contiguous ranges every later range starts after an earlier one ends. */
  lemma {:induction false} ContiguousOrdered(ranges: seq<DayRange>, i: int, j: int)
    requires Contiguous(ranges) && 0 <= i < j < |ranges|
    ensures ranges[i].end < ranges[j].start
  {
    if i < j - 1 {
      ContiguousOrdered(ranges, i, j - 1);
    }
  }

  /** Contiguous ranges never share a day. */
  lemma ContiguousDisjoint(ranges: seq<DayRange>, day: int, i: int, j: int)
    requires Contiguous(ranges)
    requires 0 <= i < |ranges| && 0 <= j < |ranges|
    requires Contains(ranges[i], day) && Contains(ranges[j], day)
    ensures i == j
  {
    if i < j {
      ContiguousOrdered(ranges, i, j);
    } else if j < i {
      ContiguousOrdered(ranges, j, i);
    }
  }

  /** Every day 1..365 lies in exactly one season range, and the lookup finds it. */
  lemma SeasonDaysPartition(day: int)
    requires 1 <= day <= 365
    ensures exists k :: 0 <= k < |SeasonDays| && Contains(SeasonDays[k], day)
    ensures forall i, j ::
              (0 <= i < |SeasonDays| && 0 <= j < |SeasonDays| &&
               Contains(SeasonDays[i], day) && Contains(SeasonDays[j], day)) ==> i == j
    ensures FirstContaining(SeasonDays, day).Some?
    ensures forall k :: 0 <= k < |SeasonDays| && Contains(SeasonDays[k], day) ==>
              FirstContaining(SeasonDays, day) == Some(SeasonDays[k].id)
  {
    assert Contiguous(SeasonDays);
    ContiguousCovers(SeasonDays, day);
    forall i, j | 0 <= i < |SeasonDays| && 0 <= j < |SeasonDays|
        && Contains(SeasonDays[i], day) && Contains(SeasonDays[j], day)
      ensures i == j
    {
      ContiguousDisjoint(SeasonDays, day, i, j);
    }
  }

  /** A day outside 1..365 lies in no season range. */
  lemma SeasonDaysOutside(day: int)
    requires day < 1 || day > 365
    ensures FirstContaining(SeasonDays, day) == None
  {
  }

  /** The first season with the given id, if any (`Array.prototype.find`). */
  function FindSeason(seasons: seq<Season>, id: int): (found: Option<Season>)
    ensures found.Some? ==> found.value in seasons && found.value.id == id
    ensures found.None? <==> forall s :: s in seasons ==> s.id != id
  {
    if seasons == [] then None
    else if seasons[0].id == id then Some(seasons[0])
    else FindSeason(seasons[1..], id)
  }

  /** The language after a press of the language button. */
  function ToggledLanguage(language: string): (next: string)
    ensures next == "EN" || next == "CZ"
    ensures language == "EN" <==> next == "CZ"
  {
    if language == "EN" then "CZ" else "EN"
  }

  /** Two presses restore either language. */
  lemma ToggledLanguageTwice(language: string)
    requires language == "EN" || language == "CZ"
    ensures ToggledLanguage(ToggledLanguage(language)) == language
  {
  }

  /** A callback the panel invokes on its owner. */
  datatype Notice = Play | Pause | SoundToggled | LanguageToggled | SeasonChanged(id: int)

  class GlassNavigation {
    var isPlaying: bool
    var soundOn: bool
    var language: string
    var activeSeason: int

    constructor ()
      ensures !isPlaying && !soundOn && language == "EN" && activeSeason == 1
    {
      isPlaying := false;
      soundOn := false;
      language := "EN";
      activeSeason := 1;
    }

    /** The effect run when the current day changes: the season whose range
        contains `currentDay` becomes active; with no such season nothing changes. */
    method UpdateActiveSeason(currentDay: int)
      modifies this`activeSeason
      ensures FirstContaining(SeasonDays, currentDay).Some? ==>
                activeSeason == FirstContaining(SeasonDays, currentDay).value
      ensures FirstContaining(SeasonDays, currentDay).None? ==> activeSeason == old(activeSeason)
    {
      var i := 0;
      while i < |SeasonDays|
        invariant 0 <= i <= |SeasonDays|
        invariant FirstContaining(SeasonDays[i..], currentDay) == FirstContaining(SeasonDays, currentDay)
        invariant activeSeason == old(activeSeason)
      {
        var range := SeasonDays[i];
        if currentDay >= range.start && currentDay <= range.end {
          activeSeason := range.id;
          break;
        }
        assert SeasonDays[i..][1..] == SeasonDays[i + 1..];
        i := i + 1;
      }
    }

    /** Play/pause button: flips the playing flag and notifies play or pause
        according to the new value. */
    method HandlePlayPause() returns (notice: Notice)
      modifies this`isPlaying
      ensures isPlaying == !old(isPlaying)
      ensures notice == Play <==> isPlaying
      ensures notice == Pause <==> !isPlaying
    {
      var newState := !isPlaying;
      isPlaying := newState;
      if newState {
        notice := Play;
      } else {
        notice := Pause;
      }
    }

    /** Sound button: flips the sound flag. */
    method HandleSoundToggle() returns (notice: Notice)
      modifies this`soundOn
      ensures soundOn == !old(soundOn) && notice == SoundToggled
    {
      soundOn := !soundOn;
      notice := SoundToggled;
    }

    /** Language button: English becomes Czech, anything else English. */
    method HandleLanguageToggle() returns (notice: Notice)
      modifies this`language
      ensures language == ToggledLanguage(old(language)) && notice == LanguageToggled
    {
      language := if language == "EN" then "CZ" else "EN";
      notice := LanguageToggled;
    }

    /** Season selector: the chosen season becomes active. */
    method HandleSeasonChange(seasonId: int) returns (notice: Notice)
      modifies this`activeSeason
      ensures activeSeason == seasonId && notice == SeasonChanged(seasonId)
    {
      activeSeason := seasonId;
      notice := SeasonChanged(seasonId);
    }

    /** The season shown: the one whose id is active, or the first season when
        no id matches. */
    function CurrentSeason(): (season: Season)
      reads this
      ensures season in Seasons
      ensures (exists s :: s in Seasons && s.id == activeSeason) ==> season.id == activeSeason
      ensures (forall s :: s in Seasons ==> s.id != activeSeason) ==> season == Seasons[0]
    {
      var found := FindSeason(Seasons, activeSeason);
      if found.Some? then found.value else Seasons[0]
    }
  }
}
