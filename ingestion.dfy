/**
 * The ingestion half of `fetchSportsData`: the ordered walk over
 * sports, leagues and events of a decoded response, and the freshness rule
 * of the ten-minute cache in front of it.
 */
module Ingestion {
  import opened Wrappers
  import opened ScoreFeed
  import opened Games

  /** `SPORTS_CACHE_DURATION`: ten minutes, in milliseconds. */
  const SportsCacheDuration := 10 * 60 * 1000

  /**
   * The stored games are served without a request iff there are some, the
   * time of the last fetch is set and truthy (a stored `0` is falsy in the
   * code), and less than the cache duration has passed since it.
   */
  predicate CacheFresh(games: seq<Game>, lastFetch: Option<int>, now: int) {
    && |games| > 0
    && lastFetch.Some? && lastFetch.value != 0
    && now - lastFetch.value < SportsCacheDuration
  }

  /**
   * The games a call of `fetchSportsData` returns and leaves stored: the
   * stored ones while fresh, the walk of a response otherwise, and the
   * stored ones again when the request fails.
   */
  function FetchedGames(stored: seq<Game>, lastFetch: Option<int>, response: Option<Feed>, now: int, localTime: string -> string): seq<Game> {
    if CacheFresh(stored, lastFetch, now) then stored
    else if response.Some? then FeedGames(response.value, localTime)
    else stored
  }

  /** The fetch time left stored by that call: `now` exactly when a response replaced the games. */
  function FetchedAt(stored: seq<Game>, lastFetch: Option<int>, response: Option<Feed>, now: int): Option<int> {
    if !CacheFresh(stored, lastFetch, now) && response.Some? then Some(now) else lastFetch
  }

  /** The game an event contributes to the walk: none, or one. */
  function EventGames(event: Option<Event>, leagueName: string, localTime: string -> string): seq<Game> {
    match ParseSportsEvent(event, leagueName, localTime)
    case Some(game) => [game]
    case None => []
  }

  /** The games of a league's events, in order. */
  function EventsGames(events: seq<Option<Event>>, leagueName: string, localTime: string -> string): seq<Game> {
    if events == [] then []
    else EventsGames(events[..|events| - 1], leagueName, localTime) + EventGames(events[|events| - 1], leagueName, localTime)
  }

  /** A league without `events` contributes nothing; its name is `shortName || name`. */
  function LeagueGames(league: League, localTime: string -> string): seq<Game> {
    if league.events.Some? then EventsGames(league.events.value, LeagueName(league), localTime) else []
  }

  function LeaguesGames(leagues: seq<League>, localTime: string -> string): seq<Game> {
    if leagues == [] then []
    else LeaguesGames(leagues[..|leagues| - 1], localTime) + LeagueGames(leagues[|leagues| - 1], localTime)
  }

  /** A sport without `leagues` contributes nothing. */
  function SportGames(sport: Sport, localTime: string -> string): seq<Game> {
    if sport.leagues.Some? then LeaguesGames(sport.leagues.value, localTime) else []
  }

  function SportsGames(sports: seq<Sport>, localTime: string -> string): seq<Game> {
    if sports == [] then []
    else SportsGames(sports[..|sports| - 1], localTime) + SportGames(sports[|sports| - 1], localTime)
  }

  /** Every game the walk over a response collects, in the order of the response. */
  function FeedGames(feed: Feed, localTime: string -> string): seq<Game> {
    if feed.sports.Some? then SportsGames(feed.sports.value, localTime) else []
  }

  /**
   * The walk of `fetchSportsData` over the response, with the `forEach` loops written out; each
   * level's callback is a method that pushes onto the shared `games`.
   */
  method CollectGames(feed: Feed, localTime: string -> string) returns (games: seq<Game>)
    ensures games == FeedGames(feed, localTime)
  {
    games := [];
    if feed.sports.Some? {
      var sports := feed.sports.value;
      for i := 0 to |sports|
        invariant games == SportsGames(sports[..i], localTime)
      {
        games := CollectSport(sports[i], localTime, games);
        assert sports[..i + 1][..i] == sports[..i];
      }
      assert sports[..|sports|] == sports;
    }
  }

  /** The callback for one sport: push the games of its leagues onto `games`. */
  method CollectSport(sport: Sport, localTime: string -> string, games: seq<Game>) returns (games': seq<Game>)
    ensures games' == games + SportGames(sport, localTime)
  {
    games' := games;
    if sport.leagues.Some? {
      var leagues := sport.leagues.value;
      for j := 0 to |leagues|
        invariant games' == games + LeaguesGames(leagues[..j], localTime)
      {
        ghost var before := games';
        games' := CollectLeague(leagues[j], localTime, games');
        LeaguesGamesStep(games, before, games', leagues, j, localTime);
      }
      assert leagues[..|leagues|] == leagues;
    }
  }

  /** The callback for one league: push the game of each of its events that parses. */
  method CollectLeague(league: League, localTime: string -> string, games: seq<Game>) returns (games': seq<Game>)
    ensures games' == games + LeagueGames(league, localTime)
  {
    games' := games;
    if league.events.Some? {
      var events := league.events.value;
      var leagueName := LeagueName(league);
      for k := 0 to |events|
        invariant games' == games + EventsGames(events[..k], leagueName, localTime)
      {
        ghost var before := games';
        var game := ParseSportsEvent(events[k], leagueName, localTime);
        if game.Some? {
          games' := games' + [game.value];
        }
        EventsGamesStep(games, before, games', events, k, leagueName, localTime);
      }
      assert events[..|events|] == events;
    }
  }

  /** One turn of the loop over events keeps the accumulated games equal to the walk of the events so far. */
  lemma EventsGamesStep(
    games: seq<Game>, before: seq<Game>, after: seq<Game>,
    events: seq<Option<Event>>, k: nat, leagueName: string, localTime: string -> string)
    requires k < |events|
    requires before == games + EventsGames(events[..k], leagueName, localTime)
    requires after == before + EventGames(events[k], leagueName, localTime)
    ensures after == games + EventsGames(events[..k + 1], leagueName, localTime)
  {
    EventsGamesUnfold(events, k, leagueName, localTime);
    AppendAssociative(games, EventsGames(events[..k], leagueName, localTime), EventGames(events[k], leagueName, localTime));
  }

  lemma EventsGamesUnfold(events: seq<Option<Event>>, k: nat, leagueName: string, localTime: string -> string)
    requires k < |events|
    ensures EventsGames(events[..k + 1], leagueName, localTime) == EventsGames(events[..k], leagueName, localTime) + EventGames(events[k], leagueName, localTime)
  {
    assert events[..k + 1][..k] == events[..k];
  }

  /** One turn of the loop over leagues keeps the accumulated games equal to the walk of the leagues so far. */
  lemma LeaguesGamesStep(games: seq<Game>, before: seq<Game>, after: seq<Game>, leagues: seq<League>, j: nat, localTime: string -> string)
    requires j < |leagues|
    requires before == games + LeaguesGames(leagues[..j], localTime)
    requires after == before + LeagueGames(leagues[j], localTime)
    ensures after == games + LeaguesGames(leagues[..j + 1], localTime)
  {
    LeaguesGamesUnfold(leagues, j, localTime);
    AppendAssociative(games, LeaguesGames(leagues[..j], localTime), LeagueGames(leagues[j], localTime));
  }

  lemma LeaguesGamesUnfold(leagues: seq<League>, j: nat, localTime: string -> string)
    requires j < |leagues|
    ensures LeaguesGames(leagues[..j + 1], localTime) == LeaguesGames(leagues[..j], localTime) + LeagueGames(leagues[j], localTime)
  {
    assert leagues[..j + 1][..j] == leagues[..j];
  }

  lemma AppendAssociative<T>(a: seq<T>, b: seq<T>, c: seq<T>)
    ensures (a + b) + c == a + (b + c)
  {
  }

  /** Every game of a list of events is a well-formed game of that league. */
  lemma {:induction false} EventsGamesWellFormed(events: seq<Option<Event>>, leagueName: string, localTime: string -> string)
    ensures forall g :: g in EventsGames(events, leagueName, localTime) ==> WellFormedGame(g) && g.league == leagueName
  {
    if events != [] {
      EventsGamesWellFormed(events[..|events| - 1], leagueName, localTime);
    }
  }

  lemma {:induction false} LeaguesGamesWellFormed(leagues: seq<League>, localTime: string -> string)
    ensures forall g :: g in LeaguesGames(leagues, localTime) ==> WellFormedGame(g)
  {
    if leagues != [] {
      LeaguesGamesWellFormed(leagues[..|leagues| - 1], localTime);
      var last := leagues[|leagues| - 1];
      if last.events.Some? {
        EventsGamesWellFormed(last.events.value, LeagueName(last), localTime);
      }
    }
  }

  lemma {:induction false} SportsGamesWellFormed(sports: seq<Sport>, localTime: string -> string)
    ensures forall g :: g in SportsGames(sports, localTime) ==> WellFormedGame(g)
  {
    if sports != [] {
      SportsGamesWellFormed(sports[..|sports| - 1], localTime);
      var last := sports[|sports| - 1];
      if last.leagues.Some? {
        LeaguesGamesWellFormed(last.leagues.value, localTime);
      }
    }
  }

  /**
   * Whatever the response holds, the walk only yields well-formed games of
   * the five supported leagues.
   */
  lemma FeedGamesWellFormed(feed: Feed, localTime: string -> string)
    ensures forall g :: g in FeedGames(feed, localTime) ==> WellFormedGame(g) && g.league in SupportedLeagues
  {
    if feed.sports.Some? {
      SportsGamesWellFormed(feed.sports.value, localTime);
    }
  }

  /** A league outside the supported five contributes no game, whatever its events hold. */
  lemma {:induction false} UnsupportedLeagueContributesNothing(league: League, localTime: string -> string)
    requires LeagueName(league) !in SupportedLeagues
    ensures LeagueGames(league, localTime) == []
  {
    if league.events.Some? {
      EventsGamesUnsupported(league.events.value, LeagueName(league), localTime);
    }
  }

  lemma {:induction false} EventsGamesUnsupported(events: seq<Option<Event>>, leagueName: string, localTime: string -> string)
    requires leagueName !in SupportedLeagues
    ensures EventsGames(events, leagueName, localTime) == []
  {
    if events != [] {
      EventsGamesUnsupported(events[..|events| - 1], leagueName, localTime);
    }
  }

  /** Each event contributes at most one game, so a league yields at most as many games as it has events. */
  lemma {:induction false} EventsGamesAtMostOnePerEvent(events: seq<Option<Event>>, leagueName: string, localTime: string -> string)
    ensures |EventsGames(events, leagueName, localTime)| <= |events|
  {
    if events != [] {
      EventsGamesAtMostOnePerEvent(events[..|events| - 1], leagueName, localTime);
    }
  }

  /**
   * An empty cache is never fresh, and a set fetch time keeps stored games
   * fresh until the cache duration has passed after it. Only the upper end
   * of the window is checked: a clock set back before the fetch time leaves
   * the stored games fresh.
   */
  lemma FreshnessWindow(games: seq<Game>, fetchedAt: int, now: int)
    requires fetchedAt != 0
    ensures CacheFresh(games, Some(fetchedAt), now) <==> games != [] && now < fetchedAt + SportsCacheDuration
    ensures !CacheFresh([], Some(fetchedAt), now)
    ensures games != [] && now < fetchedAt ==> CacheFresh(games, Some(fetchedAt), now)
  {
  }
}
