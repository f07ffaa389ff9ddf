/**
 * `parseSportsEvent`: the defensive normaliser that turns one upstream event
 * into a `Game`, or into nothing (the code's `null`).
 */
module Games {
  import opened Wrappers
  import opened ScoreFeed

  /** The only leagues the ticker shows. */
  const SupportedLeagues: seq<string> := ["MLB", "NBA", "NFL", "NHL", "PGA"]

  /** Placeholder for a team that carries no usable name. */
  const UnknownTeam := "TBD"

  datatype Status = Scheduled | Live | Final

  datatype Game = Game(
    league: string,
    team1: string,
    team2: string,
    score1: string,
    score2: string,
    team1Logo: Option<string>,
    team2Logo: Option<string>,
    status: Status,
    displayTime: string,
    isLive: bool)

  /** What every game built by `ParseSportsEvent` satisfies. */
  predicate WellFormedGame(g: Game) {
    && g.league in SupportedLeagues
    && g.team1 != "" && g.team2 != ""
    && g.score1 != "" && g.score2 != ""
    && (g.team1Logo.Some? ==> g.team1Logo.value != "")
    && (g.team2Logo.Some? ==> g.team2Logo.value != "")
    && (g.isLive <==> g.status == Live)
    && (g.status == Final ==> g.displayTime == "")
    && (g.status == Live ==> g.displayTime != "")
  }

  /** `league.shortName || league.name`; a missing or empty name becomes `""`, which no check accepts. */
  function LeagueName(league: League): (r: string)
    ensures Truthy(league.shortName) ==> r == league.shortName.value
    ensures !Truthy(league.shortName) && Truthy(league.name) ==> r == league.name.value
    ensures !Truthy(league.shortName) && !Truthy(league.name) ==> r !in SupportedLeagues
  {
    var candidates := [league.shortName, league.name];
    assert !Truthy(league.shortName) && Truthy(league.name) ==> FirstTruthyAt(candidates, 1);
    FirstTruthy(candidates, "")
  }

  /** `abbreviation || shortDisplayName || displayName || 'TBD'`. */
  function TeamName(c: Competitor): (r: string)
    ensures r != ""
    ensures Truthy(c.abbreviation) ==> r == c.abbreviation.value
    ensures !Truthy(c.abbreviation) && Truthy(c.shortDisplayName) ==> r == c.shortDisplayName.value
    ensures !Truthy(c.abbreviation) && !Truthy(c.shortDisplayName) && Truthy(c.displayName) ==> r == c.displayName.value
    ensures !Truthy(c.abbreviation) && !Truthy(c.shortDisplayName) && !Truthy(c.displayName) ==> r == UnknownTeam
  {
    var candidates := [c.abbreviation, c.shortDisplayName, c.displayName];
    assert !Truthy(c.abbreviation) && Truthy(c.shortDisplayName) ==> FirstTruthyAt(candidates, 1);
    assert !Truthy(c.abbreviation) && !Truthy(c.shortDisplayName) && Truthy(c.displayName) ==> FirstTruthyAt(candidates, 2);
    FirstTruthy(candidates, UnknownTeam)
  }

  /** `score || '0'`. */
  function TeamScore(c: Competitor): (r: string)
    ensures r != ""
    ensures r == (if Truthy(c.score) then c.score.value else "0")
  {
    FirstTruthy([c.score], "0")
  }

  /** `logo || null`: an empty logo counts as no logo. */
  function TeamLogo(c: Competitor): (r: Option<string>)
    ensures r.Some? <==> Truthy(c.logo)
    ensures r.Some? ==> r == c.logo
  {
    if Truthy(c.logo) then c.logo else None
  }

  /** `fullStatus.type?.name || ''`, or `''` when there is no `fullStatus` at all. */
  function StatusName(fullStatus: Option<FullStatus>): string {
    if fullStatus.Some? && fullStatus.value.statusType.Some? then
      FirstTruthy([fullStatus.value.statusType.value.name], "")
    else ""
  }

  /**
   * The status and the time text of an event. `localTime` stands for
   * `new Date(date).toLocaleTimeString(...)`, which the model leaves uninterpreted.
   */
  function ResolveStatus(fullStatus: Option<FullStatus>, date: Option<string>, localTime: string -> string): (r: (Status, string))
    ensures r.0 == Final <==> StatusName(fullStatus) == "STATUS_FINAL"
    ensures r.0 == Live <==> StatusName(fullStatus) == "STATUS_IN_PROGRESS"
    ensures r.0 == Final ==> r.1 == ""
    ensures r.0 == Live ==> r.1 != ""
    ensures r.0 == Live && fullStatus.value.statusType.Some? && Truthy(fullStatus.value.statusType.value.shortDetail)
            ==> r.1 == fullStatus.value.statusType.value.shortDetail.value
    ensures r.0 == Live && !(fullStatus.value.statusType.Some? && Truthy(fullStatus.value.statusType.value.shortDetail))
            ==> r.1 == "Live"
    ensures r.0 == Scheduled ==>
              r.1 == (if StatusName(fullStatus) == "STATUS_SCHEDULED" && Truthy(date) then localTime(date.value) else "")
  {
    var name := StatusName(fullStatus);
    if name == "STATUS_FINAL" then (Final, "")
    else if name == "STATUS_IN_PROGRESS" then
      // a non-empty status name implies that `type` is present
      (Live, FirstTruthy([fullStatus.value.statusType.value.shortDetail], "Live"))
    else if name == "STATUS_SCHEDULED" && Truthy(date) then (Scheduled, localTime(date.value))
    else (Scheduled, "")
  }

  /**
   * The first two competitors exist and are not `null`. A `null` among the
   * first two makes the code throw, which its own `catch` turns into `null`.
   */
  predicate HasTwoCompetitors(event: Event) {
    && event.competitors.Some?
    && |event.competitors.value| >= 2
    && event.competitors.value[0].Some?
    && event.competitors.value[1].Some?
  }

  /**
   * `parseSportsEvent`. A `null` event (`None`) gets past the league check
   * and throws on reading `competitors`, which the function's own `catch`
   * turns into `null`, as it does for a `null` among the first two
   * competitors.
   */
  function ParseSportsEvent(event: Option<Event>, leagueName: string, localTime: string -> string): (r: Option<Game>)
    ensures r.Some? <==> leagueName in SupportedLeagues && event.Some? && HasTwoCompetitors(event.value)
    ensures r.Some? ==> WellFormedGame(r.value)
    ensures r.Some? ==>
      var home, away := event.value.competitors.value[0].value, event.value.competitors.value[1].value;
      && r.value.league == leagueName
      && r.value.team1 == TeamName(home) && r.value.team2 == TeamName(away)
      && r.value.score1 == TeamScore(home) && r.value.score2 == TeamScore(away)
      && r.value.team1Logo == TeamLogo(home) && r.value.team2Logo == TeamLogo(away)
      && (r.value.status, r.value.displayTime) == ResolveStatus(event.value.fullStatus, event.value.date, localTime)
  {
    if leagueName !in SupportedLeagues then None
    else if event.None? || !HasTwoCompetitors(event.value) then None
    else
      var team1, team2 := event.value.competitors.value[0].value, event.value.competitors.value[1].value;
      var (status, displayTime) := ResolveStatus(event.value.fullStatus, event.value.date, localTime);
      Some(Game(
        leagueName,
        TeamName(team1), TeamName(team2),
        TeamScore(team1), TeamScore(team2),
        TeamLogo(team1), TeamLogo(team2),
        status, displayTime,
        status == Live))
  }

  /** An event of an unsupported league, here "MLS", yields no game whatever it holds. */
  lemma UnsupportedLeagueYieldsNothing(event: Option<Event>, localTime: string -> string)
    ensures ParseSportsEvent(event, "MLS", localTime) == None
  {
  }

  /** A finished NBA game with scores "101" and "98" becomes a Final game with those scores. */
  lemma FinalNbaGame(home: Competitor, away: Competitor, localTime: string -> string)
    requires home.score == Some("101") && away.score == Some("98")
    ensures
      var status := StatusType(Some("STATUS_FINAL"), None, None);
      var event := Event(Some([Some(home), Some(away)]), Some(FullStatus(Some(status))), None);
      var r := ParseSportsEvent(Some(event), "NBA", localTime);
      && r.Some?
      && r.value.status == Final && r.value.displayTime == "" && !r.value.isLive
      && r.value.score1 == "101" && r.value.score2 == "98"
  {
  }
}
