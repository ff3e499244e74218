/** The React application root (src/App.jsx): the current day, the loading
    flag and the autoplay flag, with the handlers the timeline and the autoplay
    button call and the body of the autoplay interval. */
module AppState {
  import Js

  /** Number of days in the archive. */
  const TotalDays: int := 364

  /** Day after one autoplay tick, with JavaScript's truncating `%`. */
  function TickDay(day: int): (next: int)
    ensures 0 <= day < TotalDays ==> 0 <= next < TotalDays
    ensures 0 <= day < TotalDays - 1 ==> next == day + 1
    ensures day == TotalDays - 1 ==> next == 0
  {
    Js.Rem(day + 1, TotalDays)
  }

  /** With the truncating `%`, a tick from any of the days -364..-2 gives
      `day + 1`, which is still negative. (From -1 and from -365 it gives 0.) */
  lemma TickDayBelowRange(day: int)
    requires -TotalDays <= day < -1
    ensures TickDay(day) == day + 1 && TickDay(day) < 0
  {
  }

  /** Day after `n` autoplay ticks. */
  function TickRun(day: int, n: nat): int {
    if n == 0 then day else TickDay(TickRun(day, n - 1))
  }

  /** Ticks from a day of the year stay in the year and advance modulo its length. */
  lemma {:induction false} TickRunCycles(day: int, n: nat)
    requires 0 <= day < TotalDays
    ensures TickRun(day, n) == (day + n) % TotalDays
  {
    if n > 0 {
      TickRunCycles(day, n - 1);
      Js.ModSucc(day + n - 1, TotalDays);
    }
  }

  /** The counter shows the 1-based day number. */
  function CounterValue(day: int): (shown: int)
    ensures 0 <= day < TotalDays ==> 1 <= shown <= TotalDays
  {
    day + 1
  }

  class App {
    var currentDay: int
    var isLoading: bool
    var autoplay: bool

    /** Initial state: day 0, loading, autoplay off. */
    constructor ()
      ensures currentDay == 0 && isLoading && !autoplay
    {
      currentDay := 0;
      isLoading := true;
      autoplay := false;
    }

    /** The loading timeout has elapsed. */
    method FinishLoading()
      modifies this`isLoading
      ensures !isLoading
    {
      isLoading := false;
    }

    /** One firing of the autoplay interval, which only runs while autoplay is on. */
    method AutoplayTick()
      requires autoplay
      modifies this`currentDay
      ensures currentDay == TickDay(old(currentDay))
    {
      currentDay := Js.Rem(currentDay + 1, TotalDays);
    }

    /** The timeline picked `day`: it becomes the current day as given, and
        autoplay is switched off if it was on. */
    method HandleDayChange(day: int)
      modifies this`currentDay, this`autoplay
      ensures currentDay == day && !autoplay
    {
      currentDay := day;
      if autoplay {
        autoplay := false;
      }
    }

    /** The autoplay button flips autoplay. */
    method ToggleAutoplay()
      modifies this`autoplay
      ensures autoplay == !old(autoplay)
    {
      autoplay := !autoplay;
    }

    /** The number the day counter shows. */
    function Counter(): (shown: int)
      reads this
      ensures 0 <= currentDay < TotalDays ==> 1 <= shown <= TotalDays
    {
      CounterValue(currentDay)
    }
  }
}
