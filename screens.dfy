/**
 * What a rotation slot produces, and `createSportsScreens`: one producer per
 * game that formats its status line and picks plain, scrolling or
 * scoreboard presentation.
 */
module Screens {
  import opened Wrappers
  import opened ScoreFeed
  import opened Games

  /** The current-weather snapshot handed to every producer; its shape is not part of this model. */
  type Snapshot(!new)

  /**
   * The value a producer returns, as the dispatch in `drawScreen` tells
   * values apart: a string, an object whose `type` is `'scroll'` or
   * `'sports'`, any other object, `null` (of type `'object'`, but reading
   * its `type` throws), and everything that is neither string nor object.
   */
  datatype Screen =
    | Plain(text: string)
    | ScrollText(text: string)
    | SportsCard(game: Game, text: string)
    | OtherObject
    | NullValue
    | NotObject

  /** A rotation slot: a function of the snapshot. */
  type Producer = Snapshot -> Screen

  /** Length above which a live line scrolls. */
  const LiveScrollLength := 45

  /** Length above which any line scrolls. */
  const ScrollLength := 60

  /** The status line a sports producer builds for its game in `createSportsScreens`. */
  function ScoreText(game: Game): string {
    match game.status
    case Final =>
      game.league + ": " + game.team1 + " " + game.score1 + ", " + game.team2 + " " + game.score2 + " - Final"
    case Live =>
      game.league + ": " + game.team1 + " " + game.score1 + ", " + game.team2 + " " + game.score2 + " - " + game.displayTime
    case Scheduled =>
      game.league + ": " + game.team1 + " vs " + game.team2 + (if game.displayTime != "" then " - " + game.displayTime else "")
  }

  /**
   * JavaScript's `length` of a string: its UTF-16 code units. A character
   * beyond the Basic Multilingual Plane takes two, a surrogate pair.
   */
  function Utf16Length(s: string): (n: nat)
    ensures |s| <= n <= 2 * |s|
  {
    if s == [] then 0
    else (if s[0] as int < 0x1_0000 then 1 else 2) + Utf16Length(s[1..])
  }

  /** A string counts one code unit per character exactly when all its characters lie in the Basic Multilingual Plane. */
  lemma {:induction false} Utf16LengthBmp(s: string)
    ensures Utf16Length(s) == |s| <==> forall i :: 0 <= i < |s| ==> s[i] as int < 0x1_0000
  {
    if s != [] {
      Utf16LengthBmp(s[1..]);
      assert forall i :: 1 <= i < |s| ==> s[i] == s[1..][i - 1];
    }
  }

  /** Code units add up over a concatenation. */
  lemma {:induction false} Utf16LengthAppend(a: string, b: string)
    ensures Utf16Length(a + b) == Utf16Length(a) + Utf16Length(b)
  {
    if a == [] {
      assert a + b == b;
    } else {
      assert (a + b)[0] == a[0];
      assert (a + b)[1..] == a[1..] + b;
      Utf16LengthAppend(a[1..], b);
    }
  }

  /** Whether a line without logos scrolls: a long live line, or any very long line, counted in code units. */
  predicate Scrolls(game: Game, text: string) {
    (game.isLive && Utf16Length(text) > LiveScrollLength) || Utf16Length(text) > ScrollLength
  }

  /**
   * The body of one sports producer: a scoreboard card when either logo is
   * truthy, else a scrolling line when the text is long, else the plain
   * line. It never yields a value the dispatch cannot draw.
   */
  function SportsScreen(game: Game): (r: Screen)
    ensures r.Plain? || r.ScrollText? || r.SportsCard?
    ensures r.text == ScoreText(game)
    ensures r.SportsCard? <==> Truthy(game.team1Logo) || Truthy(game.team2Logo)
    ensures r.SportsCard? ==> r.game == game
    ensures r.ScrollText? <==> !r.SportsCard? && Scrolls(game, ScoreText(game))
  {
    var text := ScoreText(game);
    if Truthy(game.team1Logo) || Truthy(game.team2Logo) then SportsCard(game, text)
    else if Scrolls(game, text) then ScrollText(text)
    else Plain(text)
  }

  /** One producer per game, in order; every producer ignores the snapshot. */
  method CreateSportsScreens(games: seq<Game>) returns (producers: seq<Producer>)
    ensures |producers| == |games|
    ensures forall i, data :: 0 <= i < |games| ==> producers[i](data) == SportsScreen(games[i])
  {
    producers := [];
    for i := 0 to |games|
      invariant |producers| == i
      invariant forall k, data :: 0 <= k < i ==> producers[k](data) == SportsScreen(games[k])
    {
      var game := games[i];
      producers := producers + [(data: Snapshot) => SportsScreen(game)];
    }
  }

  /**
   * The length of a status line as the scroll test reads it, in UTF-16 code
   * units, per status: the code units of its parts plus the fixed
   * separators, which are all single-unit characters.
   */
  lemma ScoreTextLength(game: Game)
    ensures game.status == Final ==>
      Utf16Length(ScoreText(game)) ==
        Utf16Length(game.league) + Utf16Length(game.team1) + Utf16Length(game.score1)
        + Utf16Length(game.team2) + Utf16Length(game.score2) + 14
    ensures game.status == Live ==>
      Utf16Length(ScoreText(game)) ==
        Utf16Length(game.league) + Utf16Length(game.team1) + Utf16Length(game.score1)
        + Utf16Length(game.team2) + Utf16Length(game.score2) + Utf16Length(game.displayTime) + 9
    ensures game.status == Scheduled ==>
      Utf16Length(ScoreText(game)) ==
        Utf16Length(game.league) + Utf16Length(game.team1) + Utf16Length(game.team2) + 6
        + (if game.displayTime != "" then Utf16Length(game.displayTime) + 3 else 0)
  {
    match game.status
    case Final => FinalTextLength(game);
    case Live => LiveTextLength(game);
    case Scheduled => ScheduledTextLength(game);
  }

  /** A final game's line: its parts, the fixed separators and " - Final". */
  lemma FinalTextLength(game: Game)
    requires game.status == Final
    ensures Utf16Length(ScoreText(game)) ==
      Utf16Length(game.league) + Utf16Length(game.team1) + Utf16Length(game.score1)
      + Utf16Length(game.team2) + Utf16Length(game.score2) + 14
  {
    var scores := game.league + ": " + game.team1 + " " + game.score1 + ", " + game.team2 + " " + game.score2;
    ScoreLineLength(game.league, game.team1, game.score1, game.team2, game.score2);
    SeparatorLengths();
    Utf16LengthAppend(scores, " - Final");
  }

  /** A live game's line: its parts, the fixed separators and the time text. */
  lemma LiveTextLength(game: Game)
    requires game.status == Live
    ensures Utf16Length(ScoreText(game)) ==
      Utf16Length(game.league) + Utf16Length(game.team1) + Utf16Length(game.score1)
      + Utf16Length(game.team2) + Utf16Length(game.score2) + Utf16Length(game.displayTime) + 9
  {
    var scores := game.league + ": " + game.team1 + " " + game.score1 + ", " + game.team2 + " " + game.score2;
    ScoreLineLength(game.league, game.team1, game.score1, game.team2, game.score2);
    SeparatorLengths();
    Utf16LengthAppend(scores, " - ");
    Utf16LengthAppend(scores + " - ", game.displayTime);
  }

  /** A scheduled game's line: league and teams, and the time text only when there is one. */
  lemma ScheduledTextLength(game: Game)
    requires game.status == Scheduled
    ensures Utf16Length(ScoreText(game)) ==
      Utf16Length(game.league) + Utf16Length(game.team1) + Utf16Length(game.team2) + 6
      + (if game.displayTime != "" then Utf16Length(game.displayTime) + 3 else 0)
  {
    var matchup := game.league + ": " + game.team1 + " vs " + game.team2;
    MatchupLineLength(game.league, game.team1, game.team2);
    SeparatorLengths();
    Utf16LengthAppend(" - ", game.displayTime);
    Utf16LengthAppend(matchup, if game.displayTime != "" then " - " + game.displayTime else "");
  }

  /** The separators of the status lines are all single-unit characters. */
  lemma SeparatorLengths()
    ensures Utf16Length(": ") == 2 && Utf16Length(" ") == 1 && Utf16Length(", ") == 2
    ensures Utf16Length(" vs ") == 4 && Utf16Length(" - ") == 3 && Utf16Length(" - Final") == 8
    ensures Utf16Length("") == 0
  {
    Utf16LengthBmp(": ");
    Utf16LengthBmp(" ");
    Utf16LengthBmp(", ");
    Utf16LengthBmp(" vs ");
    Utf16LengthBmp(" - ");
    Utf16LengthBmp(" - Final");
  }

  /** The code units of the part of a line that shows the scores, before its status. */
  lemma ScoreLineLength(league: string, team1: string, score1: string, team2: string, score2: string)
    ensures Utf16Length(league + ": " + team1 + " " + score1 + ", " + team2 + " " + score2) ==
      Utf16Length(league) + Utf16Length(team1) + Utf16Length(score1)
      + Utf16Length(team2) + Utf16Length(score2) + 6
  {
    SeparatorLengths();
    var line := league + ": ";
    Utf16LengthAppend(league, ": ");
    Utf16LengthAppend(line, team1);
    line := line + team1;
    Utf16LengthAppend(line, " ");
    line := line + " ";
    Utf16LengthAppend(line, score1);
    line := line + score1;
    Utf16LengthAppend(line, ", ");
    line := line + ", ";
    Utf16LengthAppend(line, team2);
    line := line + team2;
    Utf16LengthAppend(line, " ");
    line := line + " ";
    Utf16LengthAppend(line, score2);
  }

  /** The code units of a scheduled game's line before its time. */
  lemma MatchupLineLength(league: string, team1: string, team2: string)
    ensures Utf16Length(league + ": " + team1 + " vs " + team2) ==
      Utf16Length(league) + Utf16Length(team1) + Utf16Length(team2) + 6
  {
    SeparatorLengths();
    var line := league + ": ";
    Utf16LengthAppend(league, ": ");
    Utf16LengthAppend(line, team1);
    line := line + team1;
    Utf16LengthAppend(line, " vs ");
    line := line + " vs ";
    Utf16LengthAppend(line, team2);
  }

  /**
   * Every status line opens with the league and a colon, and a final game's
   * line ends with " - Final".
   */
  lemma ScoreTextShape(game: Game)
    ensures |ScoreText(game)| >= |game.league| + 2
    ensures ScoreText(game)[..|game.league| + 2] == game.league + ": "
    ensures game.status == Final ==> |ScoreText(game)| >= 8 && ScoreText(game)[|ScoreText(game)| - 8..] == " - Final"
  {
    var head := game.league + ": ";
    var rest := match game.status
      case Final => game.team1 + " " + game.score1 + ", " + game.team2 + " " + game.score2 + " - Final"
      case Live => game.team1 + " " + game.score1 + ", " + game.team2 + " " + game.score2 + " - " + game.displayTime
      case Scheduled => game.team1 + " vs " + game.team2 + (if game.displayTime != "" then " - " + game.displayTime else "");
    assert ScoreText(game) == head + rest;
    ConcatSplits(head, rest);
    if game.status == Final {
      var body := game.team1 + " " + game.score1 + ", " + game.team2 + " " + game.score2;
      assert rest == body + " - Final";
      ConcatSplits(head + body, " - Final");
    }
  }

  /** A concatenation splits back into its two parts. */
  lemma ConcatSplits<T>(a: seq<T>, b: seq<T>)
    ensures (a + b)[..|a|] == a && (a + b)[|a|..] == b
  {
  }

  /**
   * A game without logos whose line is 50 code units long is plain text
   * when it is not live and scrolls when it is live.
   */
  lemma FiftyCharacterLines(game: Game)
    requires Utf16Length(ScoreText(game)) == 50
    requires !Truthy(game.team1Logo) && !Truthy(game.team2Logo)
    ensures !game.isLive ==> SportsScreen(game) == Plain(ScoreText(game))
    ensures game.isLive ==> SportsScreen(game) == ScrollText(ScoreText(game))
  {
  }
}
