# 364 Sky Archive — day navigation, modelled in Dafny

The 364 Sky Archive is a browser installation that shows one sky image per
day of a 364-day year. This project models its integer day-navigation logic and
proves properties of it. It covers five source files. Each file is modelled as
it is written, and the files are not reconciled with each other.

- `archive.dfy` (module `Archive`) models the stand-alone page `script.js`.
  - The season-dependent image pattern `generateImagePattern`.
  - The gallery of 364 image elements, built in a loop.
  - `showImage`, which clamps and then displays one day.
  - The previous/next buttons, the arrow keys, swipes and the timeline handlers.
  - Autoplay start, stop and toggle, and the body of the autoplay interval.
  The page's module-level variables are the fields of class `SkyArchive`. Its
  invariant `Valid()` says five things:
  - `isAutoplay` and `isPlaying` are equal.
  - Exactly one interval runs while playing, and none while stopped.
  - The button label matches the state.
  - The gallery holds each day's image.
  - Only the current day's element is displayed, and the counter and the
    shader's `u_day` show that day.
- `app.dfy` (module `AppState`) models `src/App.jsx`.
  - The `currentDay`, `isLoading` and `autoplay` state.
  - The autoplay tick, which uses JavaScript's truncating `%`.
  - `handleDayChange` and `toggleAutoplay`.
- `timeline.dfy` (module `TimelineView`) models `src/components/Timeline.jsx`.
  - The drag state.
  - The clamped day reported by a drag or a click.
  - The month-marker table.
- `navigation.dfy` (module `Navigation`) models `src/components/GlassNavigation.jsx`.
  - The season lookup loop over the 1-based `seasonDays` table.
  - The play/pause, sound, language and season handlers.
  - The `currentSeason` fallback.
  The callbacks the panel invokes are returned as `Notice` values.
- `sky_gallery.dfy` (module `Gallery`) models `getImagePath` of
  `src/components/SkyGallery.jsx`.
- `js.dfy` (module `Js`) holds three pieces of JavaScript semantics: the
  truncating `%`, `Math.abs` of a difference, and the decimal rendering of
  integers in template literals (exact below 10^21, where JavaScript switches
  to exponent notation).
- `wrappers.dfy` holds `Option`.
- `agreement.dfy` (module `Agreement`) states where the page and the React
  components agree and where they differ.
  - The two autoplay ticks agree on every day of the year.
  - The two clamps agree on every integer.
  - The page's `floor(day / 91)` seasons and the panel's 1-based table name the
    same season on every 0-based day except 182 and 273.

Facts about the code that the model makes explicit:
- Stepping back from day 0 and forward from day 363 does nothing; only the
  autoplay tick wraps from 363 to 0.
- The gallery's image for a day repeats every 8 days, not every 364
  (`Gallery.NotPeriodicOverYear`).
- The February marker of the timeline stands at day 30, where cumulative month
  lengths of a common year give day 31 (`TimelineView.MarkersAgainstCalendar`).
- A day change swaps the image at once; there is no cross-fade between days.

## Model

| member | source | states |
|---|---|---|
| `Js.Rem` | src/App.jsx:19 | JavaScript `%`: the remainder left after the truncated quotient. It lies in `0..b-1` for a non-negative dividend and in `-(b-1)..0` for a negative one |
| `Js.NatToString` | script.js:628 | the decimal text of a number is non-empty and all digits, has no leading zero, and is one character long exactly for numbers below 10 |
| `Js.IntToString` | src/components/SkyGallery.jsx:13 | the text of an integer starts with '-' exactly when the integer is negative, and the digits after the sign parse back to its magnitude |
| `Js.Dist` | src/components/Timeline.jsx:64 | `Math.abs(a - b)`: the distance is `a - b` or `b - a`, never negative |
| `Js.ParseNatToString` | script.js:628 | parsing the decimal text gives the number back, so distinct days print distinct counters |
| `Archive.SeasonOf` | script.js:538 | the season `s` of a day satisfies `91*s <= day < 91*s + 91` |
| `Archive.SeasonInYear` | script.js:538-564 | every day 0..363 has season 0..3, so the `default` branch is never taken within the year |
| `Archive.PatternIndex` | script.js:536-566 | every array index the pattern computes, including the winter branch, lies in `0..7` |
| `Archive.GenerateImagePattern` | script.js:532-566 | every day's image is a member of `availableImages`, i.e. in `1..8` |
| `Archive.SpringImage` | script.js:545-546 | days 0..90 show image `day % 8 + 1` |
| `Archive.SummerImage` | script.js:547-548 | days 91..181 show the reversed image `8 - day % 8` |
| `Archive.AutumnImage` | script.js:549-554 | days 182..272 use the spring formula on even days and the summer formula on odd days |
| `Archive.WinterImage` | script.js:555-562 | days 273..363 show `weekday + 1` for `weekday = day % 7`. That is 1..3 for the first three weekdays and 4..7 for the rest, and image 8 never appears |
| `Archive.FallbackImage` | script.js:563-564 | past the year the fallback cycles like spring |
| `Archive.ImageSrc` | script.js:574 | an element's source starts with `images/day_` and ends with `.JPG` |
| `Archive.ImageSrcNumber` | script.js:574 | the characters between `images/day_` and `.JPG` are digits that parse back to the image number |
| `Archive.AltText` | script.js:575 | an element's alternative text starts with `Den ` |
| `Archive.AltTextNumber` | script.js:575 | the characters after `Den ` are digits that parse back to the 1-based day |
| `Archive.ImageForContents` | script.js:569-576 | the element built for a day names the file of `generateImagePattern` of that day and carries the 1-based day in its text |
| `Archive.CounterText` | script.js:628 | the counter reads `DEN ` followed by digits that parse to the 1-based day |
| `Archive.ClampDay` | script.js:717-721 | a jump lands in `0..363` and leaves in-range days unchanged |
| `Archive.ClampDayNearest` | script.js:717-721 | the clamped day is the valid day nearest to the requested one |
| `Archive.StepBack` | script.js:746-751 | stepping back moves by exactly one, stays in `0..363`, and does nothing exactly at day 0 |
| `Archive.StepForward` | script.js:753-758 | stepping forward moves by exactly one, stays in `0..363`, and does nothing exactly at day 363 |
| `Archive.AutoplayNext` | script.js:692-696 | the autoplay tick gives `(day + 1) % 364`, in range and wrapping 363 to 0 |
| `Archive.SwipeTarget` | script.js:832-851 | a swipe of at most 50 px does nothing; a longer swipe right steps back and a longer swipe left steps forward |
| `Archive.AutoplayRunCycles` | script.js:691-699 | `n` autoplay ticks from a day of the year lead to `(day + n) % 364` |
| `Archive.AutoplayVisitsEveryDay` | script.js:691-699 | 364 ticks return to the starting day, and every day is reached from every day |
| `Archive.StepForwardRunSaturates` | script.js:753-758 | `n` forward steps lead to `min(day + n, 363)` |
| `Archive.SkyArchive.constructor` | script.js:76-80 | start-up state: day 0, autoplay, playing and dragging off, no interval, the gallery built, and day 0 shown |
| `Archive.SkyArchive.InitImageGallery` | script.js:527-591 | the 364-iteration loop builds one hidden element per day, whose source is that day's pattern image |
| `Archive.SkyArchive.ShowImage` | script.js:715-742 | the index, `u_day` and the counter all become the clamped day; only that element is displayed |
| `Archive.SkyArchive.PrevClick` | script.js:746-751 | the previous button moves to `StepBack` of the day; at day 0 no state changes |
| `Archive.SkyArchive.NextClick` | script.js:753-758 | the next button moves to `StepForward` of the day; at day 363 no state changes |
| `Archive.SkyArchive.StartAutoplay` | script.js:682-700 | autoplay and playing turn on together; the old interval is cleared and only the new one runs |
| `Archive.SkyArchive.StopAutoplay` | script.js:703-712 | autoplay and playing turn off together; the interval handle is cleared and no interval runs |
| `Archive.SkyArchive.ToggleAutoplay` | script.js:673-679 | the toggle flips autoplay, keeps playing equal to it, and gives the exact interval state either way: only the new handle live when it turns on, no interval when it turns off |
| `Archive.SkyArchive.AutoplayTick` | script.js:691-699 | one interval firing moves to `AutoplayNext` of the day |
| `Archive.SkyArchive.KeyDown` | script.js:805-823 | ArrowLeft steps back, ArrowRight steps forward, space toggles autoplay with the same interval state as the play button, and any other key changes nothing |
| `Archive.SkyArchive.TouchStart` | script.js:828-830 | records where the touch started |
| `Archive.SkyArchive.TouchEnd` | script.js:832-851 | the day becomes `SwipeTarget` of the travel; a travel of at most 50 px changes nothing |
| `Archive.SkyArchive.TimelineClick` | script.js:762-770 | outside a drag a click shows the clamped day under the pointer; during a drag nothing changes |
| `Archive.SkyArchive.TimelineMouseDown` | script.js:772-779 | a press starts a drag and shows the clamped day under the pointer |
| `Archive.SkyArchive.TimelineMouseMove` | script.js:781-793 | during a drag a move shows the clamped day under the pointer; otherwise nothing changes |
| `Archive.SkyArchive.TimelineMouseUp` | script.js:795-797 | a release ends the drag |
| `AppState.TickDay` | src/App.jsx:19 | the tick keeps a day of the year in `0..363`, advances it by one and wraps 363 to 0 |
| `AppState.TickDayBelowRange` | src/App.jsx:19 | with the truncating `%`, a tick from days -364..-2 gives `day + 1`, still negative |
| `AppState.TickRunCycles` | src/App.jsx:15-23 | `n` ticks from a day of the year lead to `(day + n) % 364` |
| `AppState.CounterValue` | src/App.jsx:62 | the counter shows `1..364` for days of the year |
| `AppState.App.constructor` | src/App.jsx:9-11 | initial state: day 0, loading, autoplay off |
| `AppState.App.FinishLoading` | src/App.jsx:26-31 | the loading timeout clears the loading flag |
| `AppState.App.AutoplayTick` | src/App.jsx:17-21 | the tick runs only while autoplay is on and sets the day to `TickDay` of the day |
| `AppState.App.HandleDayChange` | src/App.jsx:33-36 | the given day becomes current unclamped, and autoplay is off afterwards |
| `AppState.App.ToggleAutoplay` | src/App.jsx:38-40 | the button flips autoplay, so two presses restore it |
| `AppState.App.Counter` | src/App.jsx:62 | the displayed day number is in `1..364` for days of the year |
| `TimelineView.ClampToTimeline` | src/components/Timeline.jsx:43 | for `totalDays >= 1` the reported day is in `0..totalDays-1`, and in-range days are kept |
| `TimelineView.ClampToTimelineNearest` | src/components/Timeline.jsx:43 | the reported day is the valid day nearest to the requested one |
| `TimelineView.PointerX` | src/components/Timeline.jsx:25 | the press position is the mouse coordinate, otherwise the touch coordinate, otherwise 0; a zero mouse coordinate falls through to the touch coordinate |
| `TimelineView.MarkersWellFormed` | src/components/Timeline.jsx:83-90 | the 12 markers pair with the 12 labels, increase strictly and lie in `0..363` |
| `TimelineView.MarkersAgainstCalendar` | src/components/Timeline.jsx:83 | every marker but February's is the first day of its month in a common year; February's is 30, not 31 |
| `TimelineView.Timeline.constructor` | src/components/Timeline.jsx:7-9 | the initial drag state is not dragging, with start position and start day 0 |
| `TimelineView.Timeline.HandleMouseDown` | src/components/Timeline.jsx:23-33 | a press sets dragging and records the pointer position and `startDay = currentDay` |
| `TimelineView.Timeline.HandleMouseMove` | src/components/Timeline.jsx:36-46 | a day is reported exactly while dragging. It is `startDay + dayDelta` clamped into `0..totalDays-1`, and with a zero delta it is `startDay` itself |
| `TimelineView.Timeline.HandleMouseUp` | src/components/Timeline.jsx:49-57 | a release clears dragging |
| `TimelineView.Timeline.HandleClick` | src/components/Timeline.jsx:60-70 | a click reports a day exactly when it is within 5 px of the press; the day is clamped into `0..totalDays-1` |
| `Navigation.FirstContaining` | src/components/GlassNavigation.jsx:100-107 | the lookup finds the id of the first range that contains the day (no earlier range contains it), and finds none exactly when no range contains it |
| `Navigation.ContiguousCovers` | src/components/GlassNavigation.jsx:78-83 | ranges laid end to end cover every day from the first start to the last end |
| `Navigation.ContiguousDisjoint` | src/components/GlassNavigation.jsx:78-83 | ranges laid end to end never share a day |
| `Navigation.SeasonDaysPartition` | src/components/GlassNavigation.jsx:78-83 | every day 1..365 lies in exactly one season range, and the lookup returns that range's id |
| `Navigation.SeasonDaysOutside` | src/components/GlassNavigation.jsx:100-107 | a day outside 1..365 matches no range |
| `Navigation.FindSeason` | src/components/GlassNavigation.jsx:134 | `find` returns a season with the id, and none exactly when no season has it |
| `Navigation.ToggledLanguage` | src/components/GlassNavigation.jsx:124-127 | "EN" becomes "CZ" and everything else becomes "EN" |
| `Navigation.ToggledLanguageTwice` | src/components/GlassNavigation.jsx:124-127 | two language toggles from "EN" or "CZ" restore it |
| `Navigation.GlassNavigation.constructor` | src/components/GlassNavigation.jsx:38-41 | initial state: not playing, sound off, language "EN", season 1 |
| `Navigation.GlassNavigation.UpdateActiveSeason` | src/components/GlassNavigation.jsx:100-107 | the loop activates the id of the first range containing the day; with no match the season is unchanged |
| `Navigation.GlassNavigation.HandlePlayPause` | src/components/GlassNavigation.jsx:109-117 | flips `isPlaying`; notifies play exactly when the new value is true and pause exactly when it is false |
| `Navigation.GlassNavigation.HandleSoundToggle` | src/components/GlassNavigation.jsx:119-122 | flips `soundOn` and notifies the sound toggle |
| `Navigation.GlassNavigation.HandleLanguageToggle` | src/components/GlassNavigation.jsx:124-127 | the language becomes `ToggledLanguage` of the old one, and the toggle is notified |
| `Navigation.GlassNavigation.HandleSeasonChange` | src/components/GlassNavigation.jsx:129-132 | sets the active season to the chosen id and changes nothing else |
| `Navigation.GlassNavigation.CurrentSeason` | src/components/GlassNavigation.jsx:134 | the season whose id is active, or the first season when none matches |
| `Gallery.ImageNumber` | src/components/SkyGallery.jsx:11-12 | for a non-negative index the image number is in `1..8`; for a negative one it is at most 1 |
| `Gallery.GetImagePath` | src/components/SkyGallery.jsx:9-14 | the path starts with `/images/day_` and ends with `.jpeg` |
| `Gallery.ImageNumberPeriodic` | src/components/SkyGallery.jsx:11-12 | the day 8 later has the same image number and path |
| `Gallery.ImageNumberSuccessor` | src/components/SkyGallery.jsx:12 | the next day's number is `num % 8 + 1` |
| `Gallery.GetImagePathShape` | src/components/SkyGallery.jsx:13 | for a non-negative index the path holds exactly one digit, the image number, which reading the path gives back |
| `Gallery.FirstDayPath` | src/components/SkyGallery.jsx:13 | day 0 gives `/images/day_1.jpeg` |
| `Gallery.NotPeriodicOverYear` | src/components/SkyGallery.jsx:12 | days 0 and 364 get different paths, so the selection does not repeat with the year |
| `Gallery.NegativeIndexOutOfRange` | src/components/SkyGallery.jsx:12 | index -1 gives image 0, outside `1..8`, so callers must pass non-negative indices |
| `Agreement.AutoplayTicksAgree` | src/App.jsx:19 | the application's tick and the page's wrap give the same next day on every day of the year |
| `Agreement.ClampsAgree` | src/components/Timeline.jsx:43 | the timeline's clamp with 364 days equals the page's `showImage` clamp on every integer |
| `Agreement.SeasonsDisagreeOnlyAt` | src/components/GlassNavigation.jsx:78-83 | for 0-based days of the year, the panel's table and the page's `floor(day/91)` name the same season exactly when the day is not 182 or 273 |
| `Agreement.SpringImagesAgree` | src/components/SkyGallery.jsx:12 | in spring the page's pattern and the gallery's cycle pick the same image |

## Left out

- The GLSL fragment shader of `script.js` is not modelled: ray marching, noise, phase function, sky colours, stars and tone mapping. It is floating-point numerics and texture sampling.
- Three.js setup, procedural noise textures, pointer-driven shader uniforms and the intensity decay are not modelled. They are library calls, `Math.random` and floating point.
- Pixel geometry is not modelled. The timeline's pointer fraction times the number of days enters as an integer day (`index`, `clickDay`), and the rounded drag offset as `dayDelta`. Progress-bar widths and marker positions are percentages and are left out.
- DOM scaffolding is not modelled: element creation, the loader, the custom cursor, the vignette and listener registration. So are the `data-day` attribute (it repeats the counter text) and the fallback image on a load error. This is I/O.
- `Archive.SkyArchive.constructor` models a successful start-up (script.js:512-515), and every handler of `SkyArchive` assumes its listener is attached exactly once. In `script.js` the listeners are attached only by `setupEvents` (script.js:745-852), which runs only from `hideLoaderAndInit` (script.js:669). That runs only on failure paths: `window.onerror` (script.js:6-10), the catch of `initThreeJS` (script.js:520-523), the CDN `onerror` (script.js:867-869) and the catch of `checkDependencies` (script.js:877-880). So after a successful start-up no handler is attached and the loader stays on screen, and each further uncaught error attaches every listener again, so that one click or key press steps more than one day. Neither outcome is modelled.
- The failure path of `script.js` start-up, where the gallery is never built, is not modelled.
- CDN script loading is not modelled.
- Timer scheduling is not modelled. Only what a tick does is modelled. The browser's interval handle is a parameter of `StartAutoplay`, `ToggleAutoplay` and `KeyDown`.
- Archive.SkyArchive.StartAutoplay: requires the interval handle to be positive, as browsers issue it. The source's `if (autoplayInterval)` treats 0 as no interval.
- AppState.App.AutoplayTick: requires `autoplay`. The effect registers the interval only while autoplay is on, and clears it when autoplay changes. The effect itself is not modelled.
- React rendering, framer-motion, lucide icons and gsap tweens are not modelled. Neither are React's asynchronous state updates and closure capture: each handler sees its component's current fields.
- The drag handler sees the pointer only through `dayDelta`, so the recorded `startX` plays no part in the modelled move.
- The `isMobile`/`isMenuOpen` layout state and the resize listener of the navigation panel are not modelled. Neither are the `onPrevious`, `onNext`, `onToggleViewMode` and `onInfo` props, which are passed straight to buttons. These hold no day logic.
- Navigation.FirstContaining: the table keys are used as integers. `Number.parseInt` of the keys "1" to "4" is not modelled.
- SkyGallery's shader material, texture loading, tweens and particles are not modelled: they are floats, randomness and animation.
- The build configuration `vite.config.js` is not modelled. It holds no logic.
