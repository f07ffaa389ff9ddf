/**
 * The module state of the current-conditions ticker as one object: the
 * rotation scheduler (`incrementInterval`, `start`, `stop`, the dispatch of
 * `drawScreen`), the registry of screen producers (`reset`, `addScreen`)
 * and the sports cache with its refresh (`fetchSportsData`,
 * `addSportsToRotation`, `startSportsUpdates`).
 *
 * Everything the module asks of the outside world at run time is a
 * parameter: the display gate (`currentDisplay()`), the weather snapshot
 * (`getCurrentWeather()`), the measured width of a scrolling line, the
 * decoded score response (or `None` when the request or its decoding
 * fails), the clock (`Date.now()`) and the locale time formatter.
 */
module Rotation {
  import opened Wrappers
  import opened Games
  import opened Ingestion
  import opened ScoreFeed
  import opened Screens
  import opened ScrollTiming

  /** `DEFAULT_UPDATE`: half-second ticks a screen stays up. */
  const DefaultUpdate := 8

  /** Number of built-in weather producers (station, temperature, humidity, wind, visibility). */
  const BaselineScreens := 5

  /** The display whose gate refusal also rewinds the rotation. */
  const ProgressElement := "progress"

  /** What `currentDisplay()` returns when it returns a display. */
  datatype Display = Display(okToDrawCurrentConditions: bool, elemId: Option<string>)

  /** `display?.okToDrawCurrentConditions` is truthy. */
  predicate AllowsDrawing(display: Option<Display>) {
    display.Some? && display.value.okToDrawCurrentConditions
  }

  /** `display?.elemId === 'progress'`. */
  predicate ShowsProgress(display: Option<Display>) {
    display.Some? && display.value.elemId == Some(ProgressElement)
  }

  /** What one draw does to the page. */
  datatype Action =
    | NoData                                         // no snapshot yet: nothing is drawn
    | DrawCondition(text: string)                    // a plain line
    | DrawObjectCondition                            // `drawCondition` handed an object of unknown `type`
    | DrawScrollCondition(text: string, dwell: nat)  // a scrolling line and the dwell it sets
    | DrawSportsCondition(game: Game, text: string)  // a scoreboard card
    | Thrown                                         // reading `type` of `null` throws; the draw is abandoned
    | Retick                                         // unknown value: a forced tick follows at once

  /**
   * The dispatch of `drawScreen` on a producer's value. Only a value that is
   * neither string nor object forces a re-tick; a scrolling line sets the
   * dwell from its measured width.
   */
  function Dispatch(screen: Screen, measure: string -> Extent): (a: Action)
    ensures a.Retick? <==> screen.NotObject?
    ensures a.Thrown? <==> screen.NullValue?
    ensures a.DrawCondition? <==> screen.Plain?
    ensures a.DrawObjectCondition? <==> screen.OtherObject?
    ensures a.DrawScrollCondition? <==> screen.ScrollText?
    ensures a.DrawSportsCondition? <==> screen.SportsCard?
    ensures a.DrawCondition? || a.DrawScrollCondition? || a.DrawSportsCondition? ==> a.text == screen.text
    ensures a.DrawScrollCondition? ==> a.dwell == ScrollDwell(measure(screen.text)) && a.dwell >= ScrollPause
    ensures a.DrawSportsCondition? ==> a.game == screen.game
  {
    match screen
    case Plain(text) => DrawCondition(text)
    case ScrollText(text) => DrawScrollCondition(text, ScrollDwell(measure(text)))
    case SportsCard(game, text) => DrawSportsCondition(game, text)
    case OtherObject => DrawObjectCondition
    case NullValue => Thrown
    case NotObject => Retick
  }

  /** A sports producer's value is always drawn, never skipped or re-ticked, and shows the game's status line. */
  lemma SportsScreensAlwaysDrawn(game: Game, measure: string -> Extent)
    ensures var a := Dispatch(SportsScreen(game), measure);
      && (a.DrawCondition? || a.DrawScrollCondition? || a.DrawSportsCondition?)
      && a.text == ScoreText(game)
  {
  }

  /** The weather producers: each wraps a string template over the snapshot. */
  function BaselineProducers(weather: seq<Snapshot -> string>): (producers: seq<Producer>)
    ensures |producers| == |weather|
    ensures forall i, data :: 0 <= i < |weather| ==> producers[i](data) == Plain(weather[i](data))
  {
    seq(|weather|, i requires 0 <= i < |weather| => (data: Snapshot) => Plain(weather[i](data)))
  }

  /** `after` is `before` followed by one producer per game, in order. */
  ghost predicate AppendedFor(before: seq<Producer>, after: seq<Producer>, games: seq<Game>) {
    && |after| == |before| + |games|
    && after[..|before|] == before
    && forall i, data :: |before| <= i < |after| ==> after[i](data) == SportsScreen(games[i - |before|])
  }

  /** Appending one producer per game, pointwise, is what `AppendedFor` describes. */
  lemma AppendedProducers(before: seq<Producer>, producers: seq<Producer>, games: seq<Game>)
    requires |producers| == |games|
    requires forall i, data :: 0 <= i < |games| ==> producers[i](data) == SportsScreen(games[i])
    ensures AppendedFor(before, before + producers, games)
  {
    var after := before + producers;
    assert after[..|before|] == before;
    forall i, data | |before| <= i < |after|
      ensures after[i](data) == SportsScreen(games[i - |before|])
    {
      assert after[i] == producers[i - |before|];
    }
  }

  class Ticker {
    /** `originalScreens`: the registry length before any sports producer. */
    const originalScreens: nat
    /** `screens`: append-only; `reset` never shrinks it. */
    var screens: seq<Producer>
    /** `lastScreen`: how many slots the rotation cycles through. */
    var lastScreen: nat
    var screenIndex: nat
    var sinceLastUpdate: nat
    var nextUpdate: nat
    /** How many half-second clocks `start` has set up. */
    var intervals: nat
    var sportsData: seq<Game>
    var sportsDataLastFetch: Option<int>
    /** How many refresh clocks `startSportsUpdates` has set up. */
    var sportsIntervals: nat

    /**
     * The slot shown is always a registered producer, although after a
     * `reset` it may lie beyond `lastScreen` until the next advance; the
     * rotation never cycles through fewer than the weather producers, and
     * the cache only holds normalised games.
     */
    ghost predicate Valid()
      reads this
    {
      && originalScreens == BaselineScreens
      && originalScreens <= lastScreen <= |screens|
      && screenIndex < |screens|
      && nextUpdate >= ScrollPause
      && intervals <= 1
      && forall g :: g in sportsData ==> WellFormedGame(g)
    }

    constructor (weather: seq<Snapshot -> string>)
      requires |weather| == BaselineScreens
      ensures Valid()
      ensures screens == BaselineProducers(weather) && lastScreen == originalScreens
      ensures screenIndex == 0 && sinceLastUpdate == 0 && nextUpdate == DefaultUpdate && intervals == 0
      ensures sportsData == [] && sportsDataLastFetch == None && sportsIntervals == 0
    {
      originalScreens := BaselineScreens;
      screens := BaselineProducers(weather);
      lastScreen := BaselineScreens;
      screenIndex, sinceLastUpdate, nextUpdate, intervals := 0, 0, DefaultUpdate, 0;
      sportsData, sportsDataLastFetch, sportsIntervals := [], None, 0;
    }

    /**
     * `start`: sets up the half-second clock unless one exists, then always
     * begins a draw (`drawing`), which completes with `DrawScreen` once the
     * snapshot arrives.
     */
    method Start() returns (drawing: bool)
      requires Valid()
      modifies this`intervals
      ensures Valid()
      ensures intervals == 1
      ensures drawing
    {
      if intervals == 0 {
        intervals := 1;
      }
      drawing := true;
    }

    /** `stop`: only rewinds the rotation when asked; the clock keeps running. */
    method Stop(reset: bool)
      requires Valid()
      modifies this`screenIndex
      ensures Valid()
      ensures screenIndex == if reset then 0 else old(screenIndex)
    {
      if reset {
        screenIndex := 0;
      }
    }

    /**
     * `incrementInterval`: one tick of the half-second clock, or a forced
     * tick. Returns whether a draw was begun (to be completed by
     * `DrawScreen`).
     */
    method IncrementInterval(force: bool, display: Option<Display>) returns (drawing: bool)
      requires Valid()
      modifies this`sinceLastUpdate, this`nextUpdate, this`screenIndex
      ensures Valid()
      ensures !force && old(sinceLastUpdate) + 1 < old(nextUpdate) ==>
        && sinceLastUpdate == old(sinceLastUpdate) + 1
        && nextUpdate == old(nextUpdate)
        && screenIndex == old(screenIndex)
        && !drawing
      ensures force || old(sinceLastUpdate) + 1 >= old(nextUpdate) ==>
        && sinceLastUpdate == 0
        && nextUpdate == DefaultUpdate
        && drawing == AllowsDrawing(display)
        && screenIndex == (if AllowsDrawing(display) then (old(screenIndex) + 1) % lastScreen
                           else if ShowsProgress(display) then 0
                           else old(screenIndex))
      ensures drawing ==> screenIndex < lastScreen
    {
      drawing := false;
      if !force {
        sinceLastUpdate := sinceLastUpdate + 1;
        if sinceLastUpdate < nextUpdate {
          return;
        }
      }
      sinceLastUpdate := 0;
      nextUpdate := DefaultUpdate;
      if !AllowsDrawing(display) {
        Stop(ShowsProgress(display));
        return;
      }
      screenIndex := (screenIndex + 1) % lastScreen;
      drawing := true;
    }

    /**
     * The part of `drawScreen` after the snapshot arrives: runs the current
     * slot's producer and dispatches its value. A value of unknown kind
     * forces a tick at once, which consults `display` (what
     * `currentDisplay()` then returns) and may begin another draw.
     */
    method DrawScreen(data: Option<Snapshot>, measure: string -> Extent, display: Option<Display>)
      returns (action: Action, drawing: bool)
      requires Valid()
      modifies this`sinceLastUpdate, this`nextUpdate, this`screenIndex
      ensures Valid()
      ensures data.None? ==> action == NoData
      ensures data.Some? ==> action == Dispatch(screens[old(screenIndex)](data.value), measure)
      ensures !action.Retick? ==>
        && !drawing
        && sinceLastUpdate == old(sinceLastUpdate)
        && screenIndex == old(screenIndex)
        && nextUpdate == (if action.DrawScrollCondition? then action.dwell else old(nextUpdate))
      ensures action.Retick? ==>
        && sinceLastUpdate == 0
        && nextUpdate == DefaultUpdate
        && drawing == AllowsDrawing(display)
        && screenIndex == (if AllowsDrawing(display) then (old(screenIndex) + 1) % lastScreen
                           else if ShowsProgress(display) then 0
                           else old(screenIndex))
    {
      drawing := false;
      if data.None? {
        action := NoData;
        return;
      }
      action := Dispatch(screens[screenIndex](data.value), measure);
      if action.DrawScrollCondition? {
        nextUpdate := action.dwell;
      } else if action.Retick? {
        drawing := IncrementInterval(true, display);
      }
    }

    /** `reset`: rewinds the count of rotated slots; the registry keeps every producer. */
    method Reset()
      requires Valid()
      modifies this`lastScreen
      ensures Valid()
      ensures lastScreen == originalScreens
    {
      lastScreen := originalScreens;
    }

    /** `addScreen`: pushes past every registered producer and counts one more slot. */
    method AddScreen(screen: Producer)
      requires Valid()
      modifies this`screens, this`lastScreen
      ensures Valid()
      ensures screens == old(screens) + [screen]
      ensures lastScreen == old(lastScreen) + 1
    {
      screens := screens + [screen];
      lastScreen := lastScreen + 1;
    }

    /**
     * `fetchSportsData`: serves the stored games while the cache is fresh;
     * otherwise issues the request (`requested`). A response replaces the
     * games and the fetch time even when it holds no game; a failure keeps
     * both and serves the stored games.
     */
    method FetchSportsData(response: Option<Feed>, now: int, localTime: string -> string)
      returns (games: seq<Game>, requested: bool)
      requires Valid()
      modifies this`sportsData, this`sportsDataLastFetch
      ensures Valid()
      ensures requested <==> !CacheFresh(old(sportsData), old(sportsDataLastFetch), now)
      ensures games == sportsData
      ensures sportsData == if requested && response.Some? then FeedGames(response.value, localTime) else old(sportsData)
      ensures sportsDataLastFetch == if requested && response.Some? then Some(now) else old(sportsDataLastFetch)
    {
      if CacheFresh(sportsData, sportsDataLastFetch, now) {
        return sportsData, false;
      }
      requested := true;
      if response.None? {
        games := if |sportsData| > 0 then sportsData else [];
        return;
      }
      games := CollectGames(response.value, localTime);
      FeedGamesWellFormed(response.value, localTime);
      sportsData := games;
      sportsDataLastFetch := Some(now);
    }

    /**
     * `addSportsToRotation`: fetches, then appends one producer per game,
     * in order; with no game, the registry is left as it is.
     */
    method AddSportsToRotation(response: Option<Feed>, now: int, localTime: string -> string)
      requires Valid()
      modifies this`sportsData, this`sportsDataLastFetch, this`screens, this`lastScreen
      ensures Valid()
      ensures sportsData == FetchedGames(old(sportsData), old(sportsDataLastFetch), response, now, localTime)
      ensures sportsDataLastFetch == FetchedAt(old(sportsData), old(sportsDataLastFetch), response, now)
      ensures AppendedFor(old(screens), screens, sportsData)
      ensures lastScreen == old(lastScreen) + |sportsData|
    {
      var games, _ := FetchSportsData(response, now, localTime);
      if |games| == 0 {
        return;
      }
      var producers := CreateSportsScreens(games);
      AddScreens(producers);
      AppendedProducers(old(screens), producers, games);
    }

    /** `sportsScreens.forEach(addScreen)`: appends the producers in order, one slot each. */
    method AddScreens(producers: seq<Producer>)
      requires Valid()
      modifies this`screens, this`lastScreen
      ensures Valid()
      ensures screens == old(screens) + producers
      ensures lastScreen == old(lastScreen) + |producers|
    {
      for i := 0 to |producers|
        invariant Valid()
        invariant screens == old(screens) + producers[..i]
        invariant lastScreen == old(lastScreen) + i
      {
        AddScreen(producers[i]);
        assert producers[..i + 1] == producers[..i] + [producers[i]];
      }
      assert producers[..|producers|] == producers;
    }

    /**
     * `startSportsUpdates`: the initial load, and one more five-minute
     * refresh clock (each call sets up another).
     */
    method StartSportsUpdates(response: Option<Feed>, now: int, localTime: string -> string)
      requires Valid()
      modifies this`sportsData, this`sportsDataLastFetch, this`screens, this`lastScreen, this`sportsIntervals
      ensures Valid()
      ensures sportsData == FetchedGames(old(sportsData), old(sportsDataLastFetch), response, now, localTime)
      ensures sportsDataLastFetch == FetchedAt(old(sportsData), old(sportsDataLastFetch), response, now)
      ensures AppendedFor(old(screens), screens, sportsData)
      ensures lastScreen == old(lastScreen) + |sportsData|
      ensures sportsIntervals == old(sportsIntervals) + 1
    {
      AddSportsToRotation(response, now, localTime);
      sportsIntervals := sportsIntervals + 1;
    }

    /**
     * The body of the five-minute refresh clock: `reset` first, then
     * `addSportsToRotation`. An empty result therefore still leaves the
     * rotation at the weather producers alone, and the new producers land
     * after every earlier one.
     */
    method RefreshSports(response: Option<Feed>, now: int, localTime: string -> string)
      requires Valid()
      modifies this`sportsData, this`sportsDataLastFetch, this`screens, this`lastScreen
      ensures Valid()
      ensures sportsData == FetchedGames(old(sportsData), old(sportsDataLastFetch), response, now, localTime)
      ensures sportsDataLastFetch == FetchedAt(old(sportsData), old(sportsDataLastFetch), response, now)
      ensures AppendedFor(old(screens), screens, sportsData)
      ensures lastScreen == originalScreens + |sportsData|
    {
      Reset();
      AddSportsToRotation(response, now, localTime);
    }

    /**
     * The evident intent of `addScreen` after a `reset`: put the producer in
     * the first slot past the rotated ones, overwriting a stale producer
     * there, so that the rotation reaches what was added last.
     */
    method PlaceScreen(screen: Producer)
      requires Valid()
      modifies this`screens, this`lastScreen
      ensures Valid()
      ensures lastScreen == old(lastScreen) + 1
      ensures |screens| == if old(lastScreen) < |old(screens)| then |old(screens)| else |old(screens)| + 1
      ensures screens[old(lastScreen)] == screen
      ensures forall i :: 0 <= i < |old(screens)| && i != old(lastScreen) ==> screens[i] == old(screens)[i]
    {
      if lastScreen < |screens| {
        screens := screens[lastScreen := screen];
      } else {
        screens := screens + [screen];
      }
      lastScreen := lastScreen + 1;
    }

    /**
     * The refresh as evidently intended: after it, the rotated slots are the
     * weather producers followed by exactly one producer per fetched game.
     */
    method RefreshSportsPlaced(response: Option<Feed>, now: int, localTime: string -> string)
      requires Valid()
      modifies this`sportsData, this`sportsDataLastFetch, this`screens, this`lastScreen
      ensures Valid()
      ensures sportsData == FetchedGames(old(sportsData), old(sportsDataLastFetch), response, now, localTime)
      ensures sportsDataLastFetch == FetchedAt(old(sportsData), old(sportsDataLastFetch), response, now)
      ensures lastScreen == originalScreens + |sportsData|
      ensures screens[..originalScreens] == old(screens)[..originalScreens]
      ensures forall i, data :: originalScreens <= i < lastScreen ==> screens[i](data) == SportsScreen(sportsData[i - originalScreens])
      ensures |screens| >= |old(screens)|
      ensures forall i :: lastScreen <= i < |old(screens)| ==> screens[i] == old(screens)[i]
    {
      Reset();
      var games, _ := FetchSportsData(response, now, localTime);
      if |games| == 0 {
        return;
      }
      var producers := CreateSportsScreens(games);
      for i := 0 to |producers|
        invariant Valid()
        invariant lastScreen == originalScreens + i
        invariant screens[..originalScreens] == old(screens)[..originalScreens]
        invariant forall k, data :: originalScreens <= k < lastScreen ==> screens[k](data) == SportsScreen(games[k - originalScreens])
        invariant |screens| >= |old(screens)|
        invariant forall k :: lastScreen <= k < |old(screens)| ==> screens[k] == old(screens)[k]
        modifies this`screens, this`lastScreen
      {
        PlaceScreen(producers[i]);
      }
    }
  }

  /**
   * The score refresh as written: a first load of one game, then a refresh
   * after the cache has expired whose response holds an updated game. The
   * last rotated slot still runs the producer of the first load, and the
   * producer of the updated game sits at the index equal to the slot count,
   * which the rotation never reaches.
   */
  method StaleScoresAfterRefresh(
    weather: seq<Snapshot -> string>, first: Feed, updated: Feed,
    loadedAt: int, refreshedAt: int, localTime: string -> string, data: Snapshot)
    returns (lastShown: Screen, newShown: Screen, newSlot: nat, slots: nat)
    requires |weather| == BaselineScreens
    requires loadedAt != 0 && refreshedAt - loadedAt >= SportsCacheDuration
    requires |FeedGames(first, localTime)| == 1 && |FeedGames(updated, localTime)| == 1
    ensures lastShown == SportsScreen(FeedGames(first, localTime)[0])
    ensures newShown == SportsScreen(FeedGames(updated, localTime)[0])
    ensures newSlot == slots
  {
    var ticker := new Ticker(weather);
    ticker.StartSportsUpdates(Some(first), loadedAt, localTime);
    assert ticker.lastScreen == BaselineScreens + 1;
    var firstScreens := ticker.screens;
    ticker.RefreshSports(Some(updated), refreshedAt, localTime);
    assert ticker.screens[..|firstScreens|] == firstScreens;
    assert ticker.screens[ticker.lastScreen - 1] == firstScreens[BaselineScreens];
    lastShown := ticker.screens[ticker.lastScreen - 1](data);
    newSlot, slots := |ticker.screens| - 1, ticker.lastScreen;
    newShown := ticker.screens[newSlot](data);
  }

  /** The same two loads with the intended refresh: the last rotated slot shows the updated game. */
  method FreshScoresAfterPlacedRefresh(
    weather: seq<Snapshot -> string>, first: Feed, updated: Feed,
    loadedAt: int, refreshedAt: int, localTime: string -> string, data: Snapshot)
    returns (lastShown: Screen)
    requires |weather| == BaselineScreens
    requires loadedAt != 0 && refreshedAt - loadedAt >= SportsCacheDuration
    requires |FeedGames(first, localTime)| == 1 && |FeedGames(updated, localTime)| == 1
    ensures lastShown == SportsScreen(FeedGames(updated, localTime)[0])
  {
    var ticker := new Ticker(weather);
    ticker.StartSportsUpdates(Some(first), loadedAt, localTime);
    ticker.RefreshSportsPlaced(Some(updated), refreshedAt, localTime);
    lastShown := ticker.screens[ticker.lastScreen - 1](data);
  }

  /**
   * Two fetches inside the cache window issue one request; one after the
   * window issues another; a failed request then serves the earlier games.
   */
  method CacheRequests(
    weather: seq<Snapshot -> string>, feed: Feed, t0: int, t1: int, t2: int, localTime: string -> string)
    returns (requests: nat, served: seq<Game>)
    requires |weather| == BaselineScreens
    requires t0 != 0 && t0 <= t1 < t0 + SportsCacheDuration <= t2
    requires FeedGames(feed, localTime) != []
    ensures requests == 2
    ensures served == FeedGames(feed, localTime)
  {
    var ticker := new Ticker(weather);
    var count := 0;
    var games, requested := ticker.FetchSportsData(Some(feed), t0, localTime);
    if requested { count := count + 1; }
    games, requested := ticker.FetchSportsData(Some(feed), t1, localTime);
    if requested { count := count + 1; }
    served, requested := ticker.FetchSportsData(None, t2, localTime);
    if requested { count := count + 1; }
    requests := count;
  }
}
