/** How the stand-alone page and the React components relate where they model
    the same thing. They are separate implementations and are not reconciled:
    these lemmas state exactly where they agree and where they differ. */
module Agreement {
  import Archive
  import AppState
  import TimelineView
  import Navigation
  import Gallery

  /** The page's autoplay tick (an explicit wrap) and the application's (a
      remainder) move every day of the year to the same next day. */
  lemma AutoplayTicksAgree(day: int)
    requires 0 <= day < Archive.TotalDays
    ensures AppState.TickDay(day) == Archive.AutoplayNext(day)
  {
  }

  /** The timeline's `max(0, min(totalDays - 1, day))` and the page's chain of
      comparisons clamp every integer alike for a 364-day year. */
  lemma ClampsAgree(day: int)
    ensures TimelineView.ClampToTimeline(day, AppState.TotalDays) == Archive.ClampDay(day)
  {
  }

  /** The season a 0-based day has on the page (`floor(day / 91)`, 0 for spring)
      and in the navigation panel (its 1-based table, id 1 for spring) are the
      same season on every day except 182 and 273, where the panel's longer
      summer and autumn still hold while the page has moved on. */
  lemma SeasonsDisagreeOnlyAt(day: int)
    requires 0 <= day < Archive.TotalDays
    ensures Navigation.FirstContaining(Navigation.SeasonDays, day + 1).Some?
    ensures Archive.SeasonOf(day) + 1 == Navigation.FirstContaining(Navigation.SeasonDays, day + 1).value
            <==> day != 182 && day != 273
  {
    Navigation.SeasonDaysPartition(day + 1);
  }

  /** In spring the page's image pattern and the gallery's cycle pick the same image. */
  lemma SpringImagesAgree(day: int)
    requires 0 <= day < 91
    ensures Archive.GenerateImagePattern(day) == Gallery.ImageNumber(day)
  {
  }
}
