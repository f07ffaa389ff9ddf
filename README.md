# Current-conditions ticker with live scores

This project models the current-conditions ticker of WeatherStar 4000+
(`server/scripts/modules/currentweatherscroll.mjs`) and proves properties of
that model. The ticker is the line under the weather display that rotates
through short texts. Each text comes from a *producer*, a function of the
current weather snapshot. The ticker:

- keeps the producers in an append-only registry;
- advances through them on a half-second clock;
- lets a screen stay up for eight ticks, or, for a scrolling line, four ticks
  plus the scroll time, which may be shorter or longer;
- adds one producer per game of a live-score response that it fetches every
  five minutes and caches for ten.

The model is split into these modules:

| module | file | what it holds |
|---|---|---|
| `Wrappers` | `wrappers.dfy` | `Option` |
| `ScoreFeed` | `score_feed.dfy` | The shape of the decoded score response, in which every field may be absent. JavaScript truthiness of optional strings, and the `or` chains of the code as `FirstTruthy`. |
| `Games` | `games.dfy` | `parseSportsEvent`: the normalised `Game`, the supported leagues, the name, score, logo and status fallbacks. |
| `Ingestion` | `ingestion.dfy` | The ordered walk of `fetchSportsData` over sports, leagues and events, as reference functions and as the imperative loops of the code. The ten-minute freshness rule. |
| `ScrollTiming` | `scroll_timing.dfy` | The dwell of a scrolling line, computed on integers. |
| `Screens` | `screens.dfy` | What a producer returns, the status line of a game, and `createSportsScreens`. |
| `Rotation` | `rotation.dfy` | The module state as one class, `Ticker`. It holds the scheduler, the registry and the sports cache with its refresh, plus scenario methods that chain several operations. |

Everything the module takes from outside at run time is a parameter of the
operation that uses it:

- the display gate, `currentDisplay()`, as an `Option<Display>`;
- the weather snapshot, as an `Option<Snapshot>` over an uninterpreted type;
- the rendered widths of a scrolling line, as a function from text to `Extent`;
- the decoded score response, as an `Option<Feed>`, where `None` stands for a
  failed request, a non-OK status or a failed decode;
- `Date.now()`, as an integer;
- the locale time formatter, as a function `string -> string`.

`drawScreen` is asynchronous: it awaits the snapshot before drawing. The model
splits each draw in two:

- `IncrementInterval` reports whether it began a draw;
- `DrawScreen` completes one draw from the snapshot.

A forced re-tick inside `DrawScreen` therefore reports whether it began another
draw, rather than recursing.

Behaviour of the code that the model keeps:

- `stop(reset)` only rewinds the index. The clock keeps running.
- `reset()` only restores the count of rotated slots, `lastScreen`. The
  registry keeps every producer.
- The five-minute refresh calls `reset()` before fetching. An empty fetch
  therefore leaves five rotated slots, the weather producers.
- After a `reset`, the rotation index can exceed `lastScreen` until the next
  advance. It always stays below the registry length.
- A scrolling line dwells at least four ticks.

## Model

| member | source | states |
|---|---|---|
| ScoreFeed.FirstTruthy | server/scripts/modules/currentweatherscroll.mjs:278-281 | the chain of JavaScript `or` over optional strings: the value of the first truthy candidate, or the fallback when none is truthy, and nothing else |
| Games.LeagueName | server/scripts/modules/currentweatherscroll.mjs:229 | the league name: the short name if truthy, else the name if truthy; with neither, a name no league check accepts |
| Games.TeamName | server/scripts/modules/currentweatherscroll.mjs:278-279 | abbreviation, else short display name, else display name, else "TBD"; never empty |
| Games.TeamScore | server/scripts/modules/currentweatherscroll.mjs:281-282 | the score if truthy, else "0"; never empty |
| Games.TeamLogo | server/scripts/modules/currentweatherscroll.mjs:275-276 | a logo is kept exactly when it is truthy, and then unchanged |
| Games.ResolveStatus | server/scripts/modules/currentweatherscroll.mjs:284-309 | Final iff the status name is STATUS_FINAL, Live iff STATUS_IN_PROGRESS, Scheduled otherwise; Final has no time text; Live shows the short detail or "Live", never empty; Scheduled shows the formatted date only for STATUS_SCHEDULED with a truthy date |
| Games.ParseSportsEvent | server/scripts/modules/currentweatherscroll.mjs:251-327 | a game exactly when the league is one of the five, the event is not null and its first two competitors exist; the game is well formed and built field by field from those two competitors and the status |
| Games.UnsupportedLeagueYieldsNothing | server/scripts/modules/currentweatherscroll.mjs:253-257 | an event of league "MLS" yields no game, whatever it holds |
| Games.FinalNbaGame | server/scripts/modules/currentweatherscroll.mjs:288-322 | a finished NBA event with scores "101" and "98" yields a Final, not-live game with no time text and those scores |
| Ingestion.CollectGames | server/scripts/modules/currentweatherscroll.mjs:219-238 | the nested loops over sports, leagues and events collect exactly the reference walk `FeedGames`, in response order |
| Ingestion.CollectSport | server/scripts/modules/currentweatherscroll.mjs:223-237 | one sport's callback appends the games of its leagues in order; a sport without leagues appends nothing |
| Ingestion.CollectLeague | server/scripts/modules/currentweatherscroll.mjs:226-235 | one league's callback appends the game of each event that parses, in order; a league without events appends nothing |
| Ingestion.EventsGamesWellFormed | server/scripts/modules/currentweatherscroll.mjs:228-233 | every game collected from a league's events is well formed and carries that league's name |
| Ingestion.LeaguesGamesWellFormed | server/scripts/modules/currentweatherscroll.mjs:226-235 | every game collected from a list of leagues is well formed |
| Ingestion.SportsGamesWellFormed | server/scripts/modules/currentweatherscroll.mjs:223-237 | every game collected from a list of sports is well formed |
| Ingestion.FeedGamesWellFormed | server/scripts/modules/currentweatherscroll.mjs:219-238 | whatever the response holds, the walk yields only well-formed games of the five supported leagues |
| Ingestion.UnsupportedLeagueContributesNothing | server/scripts/modules/currentweatherscroll.mjs:226-235 | a league whose name is not one of the five contributes no game, whatever its events hold |
| Ingestion.EventsGamesUnsupported | server/scripts/modules/currentweatherscroll.mjs:228-233 | events walked under an unsupported league name yield nothing |
| Ingestion.EventsGamesAtMostOnePerEvent | server/scripts/modules/currentweatherscroll.mjs:228-233 | each event contributes at most one game |
| Ingestion.FreshnessWindow | server/scripts/modules/currentweatherscroll.mjs:194-203 | with a set fetch time, the cache is fresh iff it holds games and the clock is less than ten minutes past the fetch time; an empty cache is never fresh; a clock set back before the fetch time keeps stored games fresh |
| ScrollTiming.ScrollDistance | server/scripts/modules/currentweatherscroll.mjs:164 | the distance is non-negative, at least the overflow, and either zero or exactly the overflow |
| ScrollTiming.ScrollDwell | server/scripts/modules/currentweatherscroll.mjs:164-168 | the dwell is the four pause ticks plus the fewest half seconds in which 75 px/s covers the distance |
| ScrollTiming.FittingTextDwellsMinimum | server/scripts/modules/currentweatherscroll.mjs:164-168 | text that fits its area dwells exactly the four pause ticks |
| ScrollTiming.ThreeHundredPixelsDwellTwelve | server/scripts/modules/currentweatherscroll.mjs:164-168 | 500 px of text in a 200 px area dwells twelve ticks |
| ScrollTiming.DwellMonotonic | server/scripts/modules/currentweatherscroll.mjs:164-168 | a longer scroll never dwells shorter |
| Screens.SportsScreen | server/scripts/modules/currentweatherscroll.mjs:335-376 | the producer's value carries the game's status line; a scoreboard card iff either logo is truthy; otherwise scrolling iff a live line is over 45 UTF-16 code units or any line is over 60; otherwise the plain line |
| Screens.CreateSportsScreens | server/scripts/modules/currentweatherscroll.mjs:330-382 | one producer per game, in game order, each yielding that game's screen for every snapshot |
| Screens.ScoreTextLength | server/scripts/modules/currentweatherscroll.mjs:338-347 | the status line's length in UTF-16 code units per status, the length the scroll test compares: the code units of its parts plus 14 (final), 9 (live) or 6, plus 3 with a time (scheduled), for the fixed separators |
| Screens.ScoreTextShape | server/scripts/modules/currentweatherscroll.mjs:338-347 | every status line starts with "<league>: ", and a final game's line ends with " - Final" |
| Screens.Utf16Length | server/scripts/modules/currentweatherscroll.mjs:368 | the `length` the scroll test reads counts UTF-16 code units: between the number of characters and twice it |
| Screens.Utf16LengthBmp | server/scripts/modules/currentweatherscroll.mjs:368 | a string's code units equal its characters exactly when every character lies in the Basic Multilingual Plane |
| Screens.Utf16LengthAppend | server/scripts/modules/currentweatherscroll.mjs:339-346 | the code units of a line built by concatenation are the sum of those of its parts |
| Screens.FiftyCharacterLines | server/scripts/modules/currentweatherscroll.mjs:367-375 | a line of 50 code units without logos is plain when not live and scrolls when live |
| Rotation.Dispatch | server/scripts/modules/currentweatherscroll.mjs:65-83 | one drawing action per kind of value, each iff that kind; only a non-object value forces a re-tick; null throws; a scrolling line sets the dwell from its measured width |
| Rotation.SportsScreensAlwaysDrawn | server/scripts/modules/currentweatherscroll.mjs:335-376 | a sports producer's value is always drawn, as a plain line, a scroll or a card, and shows the game's status line |
| Rotation.BaselineProducers | server/scripts/modules/currentweatherscroll.mjs:87-125 | the five weather producers each yield a plain line, their template applied to the snapshot |
| Rotation.Ticker.constructor | server/scripts/modules/currentweatherscroll.mjs:12-15 | initial state: the five weather producers all rotated, index 0, default dwell, no clock, empty cache without a fetch time |
| Rotation.Ticker.Start | server/scripts/modules/currentweatherscroll.mjs:19-29 | exactly one half-second clock exists after any number of starts, and a draw always begins |
| Rotation.Ticker.Stop | server/scripts/modules/currentweatherscroll.mjs:31-33 | rewinds the index to 0 iff asked, and changes nothing else |
| Rotation.Ticker.IncrementInterval | server/scripts/modules/currentweatherscroll.mjs:37-56 | an unforced tick before the dwell only counts; otherwise the counters reset, and the index advances modulo the slot count iff the display allows drawing (then a draw begins), is rewound iff the display is the progress screen, and is kept otherwise |
| Rotation.Ticker.DrawScreen | server/scripts/modules/currentweatherscroll.mjs:58-84 | without a snapshot nothing happens; otherwise the current slot's value is dispatched, a scroll sets the dwell, and only an unidentifiable value forces a tick, with that tick's full effect |
| Rotation.Ticker.Reset | server/scripts/modules/currentweatherscroll.mjs:143-145 | restores the slot count to the five weather producers and touches nothing else |
| Rotation.Ticker.AddScreen | server/scripts/modules/currentweatherscroll.mjs:148-151 | appends the producer after every registered one and counts one more slot |
| Rotation.Ticker.AddScreens | server/scripts/modules/currentweatherscroll.mjs:504-506 | adding the sports producers one by one leaves the registry as the old one followed by all of them, in order, with one more slot each |
| Rotation.AppendedProducers | server/scripts/modules/currentweatherscroll.mjs:501-506 | appending the producers built for the games, pointwise, gives a registry whose new slots show those games in order |
| Rotation.Ticker.FetchSportsData | server/scripts/modules/currentweatherscroll.mjs:197-248 | a request is made iff the cache is not fresh; a response replaces the games with its walk and stamps the time, even when empty; a failure keeps both and serves the stored games |
| Rotation.Ticker.AddSportsToRotation | server/scripts/modules/currentweatherscroll.mjs:491-512 | after the fetch, the registry is the old one followed by one producer per fetched game in order, and the slot count grows by that many; no game leaves the registry as it was |
| Rotation.Ticker.StartSportsUpdates | server/scripts/modules/currentweatherscroll.mjs:515-526 | the initial load as above, plus one more five-minute refresh clock per call |
| Rotation.Ticker.RefreshSports | server/scripts/modules/currentweatherscroll.mjs:520-525 | the refresh: the count of rotated slots becomes five plus the number of fetched games, and the new producers land after every earlier one |
| Rotation.Ticker.PlaceScreen | server/scripts/modules/currentweatherscroll.mjs:148-151 | corrected `addScreen`: the producer lands in the first slot past the rotated ones, overwriting a stale one there, and every other slot keeps its producer |
| Rotation.Ticker.RefreshSportsPlaced | server/scripts/modules/currentweatherscroll.mjs:520-525 | corrected refresh: the rotated slots are exactly the weather producers followed by one producer per fetched game; the registry never shrinks, and the slots past the rotated ones keep their old producers |
| Rotation.StaleScoresAfterRefresh | server/scripts/modules/currentweatherscroll.mjs:143-151 | as written: after a refresh with an updated game, the last rotated slot still shows the first load's game, and the updated game's producer sits at the index equal to the slot count, which the rotation never reaches |
| Rotation.FreshScoresAfterPlacedRefresh | server/scripts/modules/currentweatherscroll.mjs:520-525 | with the corrected refresh, the last rotated slot shows the updated game |
| Rotation.CacheRequests | server/scripts/modules/currentweatherscroll.mjs:197-247 | two fetches within ten minutes make one request, a later one makes another, and a failed request then serves the games from the response |

## Left out

- Drawing on the page is not modelled: `drawCondition`, `drawScrollCondition`'s
  element handling and CSS transition, `drawSportsCondition` and its styling.
  The model records which drawing happens and with what text, game and dwell.
- Timers are not modelled as such. `setInterval`, `setTimeout` and the
  `DOMContentLoaded` listeners become explicit calls of the operations. The
  clocks that exist are counted in `intervals` and `sportsIntervals`.
- The HTTP request, the response status and the JSON decoding are not
  modelled. The outcome of each is the `Option<Feed>` parameter.
- A response where `sports`, `leagues` or `events` is not an array, or where
  `sports` or `leagues` holds `null` entries, is not modelled. The code throws
  there, which lands in the failure path that `None` stands for. A `null`
  entry of `events` is modelled: `parseSportsEvent` catches it and the walk
  skips the event.
- A JavaScript string holding a lone surrogate has no counterpart in the
  model, whose characters are Unicode scalar values. Every other string's
  `length` is modelled as its UTF-16 code units.
- The texts of the five weather producers are not modelled. They are opaque
  functions of the snapshot, and so is `locationCleanup`.
- `toLocaleTimeString` is not modelled. It is the `localTime` parameter.
- Numbers formatted with `toFixed` are not modelled.
- Console logging is not modelled.
- The `window.CurrentWeatherScroll` exports are not modelled.
- Interleavings of the asynchronous steps are not modelled. Two overlapping
  draws or two overlapping fetches are not represented. Each operation runs to
  completion.
- Repeated forced re-ticks are not chained. `DrawScreen` returns after one
  forced tick and reports whether another draw began.
- Scores are modelled as strings. A numeric score in the response is rendered
  by the code through string conversion, which is not modelled.
- Games.ParseSportsEvent: the model does not check that `competitors` is an
  array. Any other truthy value is outside the modelled response shape.
- ScrollTiming.ScrollDwell: the code computes with floating point, and the
  model computes on integers. For integer widths the two give the same whole
  number, but that equivalence is argued in the member's comment, not proved.

## Findings

| source | as written | input that shows it | evidently intended | confidence | as-written member | corrected member |
|---|---|---|---|---|---|---|
| server/scripts/modules/currentweatherscroll.mjs:143-151 | `reset()` only rewinds `lastScreen`, and `addScreen` always pushes at the end of `screens`. After a refresh, the rotated slots past the weather producers still hold the producers of the first load, and the new producers sit beyond `lastScreen`. | A first load of one game, then a refresh after ten minutes whose response holds an updated game. The rotation cycles through six slots, and slot 5 still shows the old score. | After a refresh, the rotated slots show the newly fetched games. | high, not executed | Rotation.StaleScoresAfterRefresh | Rotation.Ticker.RefreshSportsPlaced |

The main model (`RefreshSports`, `AddScreen`) keeps the code as written. The
corrected members, `PlaceScreen` and `RefreshSportsPlaced`, place each new
producer in the slot right after the rotated ones.
