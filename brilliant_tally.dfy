/**
 * The per-player tally of `analyze_games_for_brilliants`: counts of selected
 * move labels over one player's moves in a list of already fetched games.
 */
module BrilliantTally {
  import opened Wrappers
  import opened Chess
  import opened MoveQuality
  import opened GameAnalysis

  /** The fields of one fetched game record that the tally reads; absent fields are `None`. */
  datatype GameRecord = GameRecord(
    pgn: Option<string>,
    white: Option<string>,
    black: Option<string>,
    endTime: Option<int>,
    timeClass: Option<string>,
    url: Option<string>)

  /** The five counters kept per game and in total. */
  datatype Counts = Counts(brilliant: nat, great: nat, best: nat, blunders: nat, mistakes: nat) {
    function Plus(other: Counts): Counts
    {
      Counts(brilliant + other.brilliant, great + other.great, best + other.best,
             blunders + other.blunders, mistakes + other.mistakes)
    }

    function Sum(): nat
    {
      brilliant + great + best + blunders + mistakes
    }
  }

  const NoCounts := Counts(0, 0, 0, 0, 0)

  /** One element of `games_with_brilliants`; the date is kept as the raw end time. */
  datatype BrilliantGame = BrilliantGame(endTime: int, opponent: string, color: Color, brilliants: nat,
                                         timeClass: string, url: string)

  /** The returned dictionary. */
  datatype Summary = Summary(totals: Counts, gamesAnalyzed: nat, gamesWithBrilliants: seq<BrilliantGame>)

  /** ASCII lower-casing of one character. */
  function LowerChar(c: char): (d: char)
    ensures !('A' <= d <= 'Z')
    ensures !('A' <= c <= 'Z') ==> d == c
  {
    if 'A' <= c <= 'Z' then (c as int + 32) as char else c
  }

  /** Lower-casing of a name, on ASCII letters. */
  function Lower(s: string): (r: string)
    ensures |r| == |s|
    ensures forall i :: 0 <= i < |s| ==> r[i] == LowerChar(s[i])
  {
    if s == [] then [] else [LowerChar(s[0])] + Lower(s[1..])
  }

  /** Lower-casing twice is lower-casing once. */
  lemma LowerIdempotent(s: string)
    ensures Lower(Lower(s)) == Lower(s)
  {
    assert forall i :: 0 <= i < |s| ==> LowerChar(LowerChar(s[i])) == LowerChar(s[i]);
  }

  /** The queried player has White exactly when White's name matches it ignoring case. */
  function PlayerColor(white: string, username: string): (c: Color)
    ensures c == White <==> Lower(white) == Lower(username)
  {
    if Lower(white) == Lower(username) then White else Black
  }

  /** The colour does not depend on how either name is capitalised. */
  lemma PlayerColorIgnoresCase(white: string, username: string)
    ensures PlayerColor(Lower(white), username) == PlayerColor(white, Lower(username))
    ensures PlayerColor(white, username) == PlayerColor(Lower(white), Lower(username))
  {
    LowerIdempotent(white);
    LowerIdempotent(username);
  }

  /** The other side's name. */
  function Opponent(white: string, black: string, color: Color): (name: string)
    ensures color == White ==> name == black
    ensures color == Black ==> name == white
  {
    if color == White then black else white
  }

  /** The queried player moved at index `idx`: even indices for White, odd for Black. */
  predicate IsPlayerMove(idx: nat, color: Color)
    ensures IsPlayerMove(idx, color) <==> (idx % 2 == 0 <==> color == White)
  {
    (idx % 2 == 0 && color == White) || (idx % 2 == 1 && color == Black)
  }

  /** Reference count: the player's entries whose quality string is `name`. */
  function CountLabel(analysis: seq<PlyEntry>, color: Color, name: string): nat
  {
    if analysis == [] then 0
    else
      var n := |analysis| - 1;
      CountLabel(analysis[..n], color, name) +
        (if IsPlayerMove(n, color) && analysis[n].quality.Name() == name then 1 else 0)
  }

  /** The number of indices below `n` that are the player's moves. */
  function PlayerMoves(n: nat, color: Color): nat
  {
    if n == 0 then 0 else PlayerMoves(n - 1, color) + (if IsPlayerMove(n - 1, color) then 1 else 0)
  }

  /** The counters a game contributes, each an independent count of its label. */
  function LabelCounts(analysis: seq<PlyEntry>, color: Color): Counts
  {
    Counts(CountLabel(analysis, color, "brilliant"), CountLabel(analysis, color, "great"),
           CountLabel(analysis, color, "best"), CountLabel(analysis, color, "blunder"),
           CountLabel(analysis, color, "mistake"))
  }

  /** The inner loop: the if/elif chain over the player's entries. */
  method CountPlayerQualities(analysis: seq<PlyEntry>, color: Color) returns (counts: Counts)
    ensures counts == LabelCounts(analysis, color)
  {
    var brilliants, greats, bests, blunders, mistakes := 0, 0, 0, 0, 0;
    var idx := 0;
    while idx < |analysis|
      invariant 0 <= idx <= |analysis|
      invariant brilliants == CountLabel(analysis[..idx], color, "brilliant")
      invariant greats == CountLabel(analysis[..idx], color, "great")
      invariant bests == CountLabel(analysis[..idx], color, "best")
      invariant blunders == CountLabel(analysis[..idx], color, "blunder")
      invariant mistakes == CountLabel(analysis[..idx], color, "mistake")
    {
      assert analysis[..idx + 1][..idx] == analysis[..idx];
      var isPlayerMove := (idx % 2 == 0 && color == White) || (idx % 2 == 1 && color == Black);
      if isPlayerMove {
        var quality := analysis[idx].quality.Name();
        if quality == "brilliant" {
          brilliants := brilliants + 1;
        } else if quality == "great" {
          greats := greats + 1;
        } else if quality == "best" {
          bests := bests + 1;
        } else if quality == "blunder" {
          blunders := blunders + 1;
        } else if quality == "mistake" {
          mistakes := mistakes + 1;
        }
      }
      idx := idx + 1;
    }
    assert analysis[..|analysis|] == analysis;
    counts := Counts(brilliants, greats, bests, blunders, mistakes);
  }

  /** No entry is ever labelled "great", so the great counter stays 0. */
  lemma {:induction false} GreatNeverCounted(analysis: seq<PlyEntry>, color: Color)
    ensures CountLabel(analysis, color, "great") == 0
  {
    if analysis != [] {
      GreatNeverCounted(analysis[..|analysis| - 1], color);
      NameIsProduced(analysis[|analysis| - 1].quality);
    }
  }

  /** The labels are distinct, so the counters together never exceed the player's moves. */
  lemma {:induction false} CountsWithinPlayerMoves(analysis: seq<PlyEntry>, color: Color)
    ensures LabelCounts(analysis, color).Sum() <= PlayerMoves(|analysis|, color)
  {
    if analysis != [] {
      var n := |analysis| - 1;
      CountsWithinPlayerMoves(analysis[..n], color);
    }
  }

  /** A game's pgn, with a missing one read as empty. */
  function Pgn(g: GameRecord): string
  {
    g.pgn.GetOr("")
  }

  /** A game is tallied when its pgn is non-empty and analysing it does not raise. */
  predicate Tallied(g: GameRecord, analyze: string -> Option<seq<PlyEntry>>)
    ensures Tallied(g, analyze) ==> g.pgn.Some? && |g.pgn.value| > 0
  {
    Pgn(g) != "" && analyze(Pgn(g)).Some?
  }

  /** The queried player's colour in a game. */
  function ColorIn(g: GameRecord, username: string): Color
  {
    PlayerColor(g.white.GetOr("Unknown"), username)
  }

  /** What one game adds to the totals. */
  function GameCounts(g: GameRecord, username: string, analyze: string -> Option<seq<PlyEntry>>): Counts
  {
    if Tallied(g, analyze) then LabelCounts(analyze(Pgn(g)).value, ColorIn(g, username)) else NoCounts
  }

  /** Reference totals: the sum of the per-game counters over the games. */
  function TotalCounts(games: seq<GameRecord>, username: string, analyze: string -> Option<seq<PlyEntry>>): Counts
  {
    if games == [] then NoCounts
    else TotalCounts(games[..|games| - 1], username, analyze).Plus(GameCounts(games[|games| - 1], username, analyze))
  }

  /** The record a game with brilliant moves contributes to the list. */
  function BrilliantRecord(g: GameRecord, username: string, brilliants: nat): (r: BrilliantGame)
    ensures r.brilliants == brilliants && r.color == ColorIn(g, username)
    ensures r.opponent == (if r.color == White then g.black.GetOr("Unknown") else g.white.GetOr("Unknown"))
    ensures r.endTime == g.endTime.GetOr(0) && r.url == g.url.GetOr("")
  {
    var white := g.white.GetOr("Unknown");
    var black := g.black.GetOr("Unknown");
    var color := PlayerColor(white, username);
    BrilliantGame(g.endTime.GetOr(0), Opponent(white, black, color), color, brilliants,
                  g.timeClass.GetOr("Unknown"), g.url.GetOr(""))
  }

  /** Reference list: the tallied games with at least one brilliant move, in game order. */
  function BrilliantGames(games: seq<GameRecord>, username: string, analyze: string -> Option<seq<PlyEntry>>): seq<BrilliantGame>
  {
    if games == [] then []
    else
      var g := games[|games| - 1];
      var c := GameCounts(g, username, analyze);
      BrilliantGames(games[..|games| - 1], username, analyze) +
        (if c.brilliant > 0 then [BrilliantRecord(g, username, c.brilliant)] else [])
  }

  /**
   * The body of the game loop for one game: `None` when the game is skipped
   * (empty pgn, or its analysis raised), otherwise its counters and, when it
   * has brilliant moves, its record for `games_with_brilliants`.
   */
  method TallyGame(username: string, game: GameRecord, analyze: string -> Option<seq<PlyEntry>>)
    returns (tally: Option<(Counts, Option<BrilliantGame>)>)
    ensures tally.Some? <==> Tallied(game, analyze)
    ensures tally.Some? ==> tally.value.0 == GameCounts(game, username, analyze)
    ensures tally.Some? ==> tally.value.1.Some? == (tally.value.0.brilliant > 0)
    ensures tally.Some? && tally.value.1.Some? ==>
      tally.value.1.value == BrilliantRecord(game, username, tally.value.0.brilliant)
  {
    var pgn := game.pgn.GetOr("");
    if pgn == "" {
      return None;
    }
    var white := game.white.GetOr("Unknown");
    var black := game.black.GetOr("Unknown");
    var playerColor := PlayerColor(white, username);
    var opponent := Opponent(white, black, playerColor);
    var result := analyze(pgn);
    if result.None? {
      return None;
    }
    var counts := CountPlayerQualities(result.value, playerColor);
    var record := None;
    if counts.brilliant > 0 {
      record := Some(BrilliantGame(game.endTime.GetOr(0), opponent, playerColor, counts.brilliant,
                                   game.timeClass.GetOr("Unknown"), game.url.GetOr("")));
    }
    return Some((counts, record));
  }

  /**
   * `analyze_games_for_brilliants` over the fetched games; `None` when there
   * are no games. The five running totals are held in one `Counts` value, and
   * the five `+=` of a game are one field-wise `Plus`.
   */
  method AnalyzeGamesForBrilliants(username: string, games: seq<GameRecord>,
                                   analyze: string -> Option<seq<PlyEntry>>) returns (summary: Option<Summary>)
    ensures summary.None? <==> games == []
    ensures summary.Some? ==> summary.value.gamesAnalyzed == |games|
    ensures summary.Some? ==> summary.value.totals == TotalCounts(games, username, analyze)
    ensures summary.Some? ==> summary.value.gamesWithBrilliants == BrilliantGames(games, username, analyze)
  {
    if games == [] {
      return None;
    }
    var totals := NoCounts;
    var gamesWithBrilliants := [];
    var i := 0;
    while i < |games|
      invariant 0 <= i <= |games|
      invariant totals == TotalCounts(games[..i], username, analyze)
      invariant gamesWithBrilliants == BrilliantGames(games[..i], username, analyze)
    {
      Step(games, i, username, analyze);
      var tally := TallyGame(username, games[i], analyze);
      if tally.None? {
        PlusZero(totals);
        assert gamesWithBrilliants + [] == gamesWithBrilliants;
      } else {
        var (counts, record) := tally.value;
        totals := totals.Plus(counts);
        if record.Some? {
          gamesWithBrilliants := gamesWithBrilliants + [record.value];
        } else {
          assert gamesWithBrilliants + [] == gamesWithBrilliants;
        }
      }
      i := i + 1;
    }
    assert games[..|games|] == games;
    summary := Some(Summary(totals, |games|, gamesWithBrilliants));
  }

  /** The totals add up over a split of the game list. */
  lemma {:induction false} TotalsAdd(a: seq<GameRecord>, b: seq<GameRecord>, username: string,
                                     analyze: string -> Option<seq<PlyEntry>>)
    ensures TotalCounts(a + b, username, analyze) == TotalCounts(a, username, analyze).Plus(TotalCounts(b, username, analyze))
  {
    if b == [] {
      assert a + b == a;
      PlusZero(TotalCounts(a, username, analyze));
    } else {
      var front, last := b[..|b| - 1], b[|b| - 1];
      assert b == front + [last];
      assert a + b == (a + front) + [last];
      TotalsSnoc(a + front, last, username, analyze);
      TotalsSnoc(front, last, username, analyze);
      TotalsAdd(a, front, username, analyze);
      PlusAssociative(TotalCounts(a, username, analyze), TotalCounts(front, username, analyze),
                      GameCounts(last, username, analyze));
    }
  }

  lemma TotalsSnoc(games: seq<GameRecord>, g: GameRecord, username: string, analyze: string -> Option<seq<PlyEntry>>)
    ensures TotalCounts(games + [g], username, analyze)
            == TotalCounts(games, username, analyze).Plus(GameCounts(g, username, analyze))
  {
    var all := games + [g];
    assert all[..|all| - 1] == games;
    assert all[|all| - 1] == g;
  }

  lemma PlusZero(x: Counts)
    ensures x.Plus(NoCounts) == x
  {
  }

  lemma PlusAssociative(x: Counts, y: Counts, z: Counts)
    ensures x.Plus(y).Plus(z) == x.Plus(y.Plus(z))
  {
  }

  /** One more game extends the reference totals and list by that game's share. */
  lemma Step(games: seq<GameRecord>, i: nat, username: string, analyze: string -> Option<seq<PlyEntry>>)
    requires i < |games|
    ensures TotalCounts(games[..i + 1], username, analyze)
            == TotalCounts(games[..i], username, analyze).Plus(GameCounts(games[i], username, analyze))
    ensures var c := GameCounts(games[i], username, analyze);
      BrilliantGames(games[..i + 1], username, analyze)
      == BrilliantGames(games[..i], username, analyze) +
         (if c.brilliant > 0 then [BrilliantRecord(games[i], username, c.brilliant)] else [])
  {
    assert games[..i + 1][..i] == games[..i];
  }

  /** A game with an empty pgn, or whose analysis raised, changes neither the totals nor the list. */
  lemma SkippedGameContributesNothing(games: seq<GameRecord>, g: GameRecord, username: string,
                                      analyze: string -> Option<seq<PlyEntry>>)
    requires !Tallied(g, analyze)
    ensures TotalCounts(games + [g], username, analyze) == TotalCounts(games, username, analyze)
    ensures BrilliantGames(games + [g], username, analyze) == BrilliantGames(games, username, analyze)
  {
    TotalsSnoc(games, g, username, analyze);
    BrilliantGamesSnoc(games, g, username, analyze);
    PlusZero(TotalCounts(games, username, analyze));
  }

  /** The great total is always 0. */
  lemma {:induction false} TotalGreatIsZero(games: seq<GameRecord>, username: string,
                                            analyze: string -> Option<seq<PlyEntry>>)
    ensures TotalCounts(games, username, analyze).great == 0
  {
    if games != [] {
      TotalGreatIsZero(games[..|games| - 1], username, analyze);
      var g := games[|games| - 1];
      if Tallied(g, analyze) {
        GreatNeverCounted(analyze(Pgn(g)).value, ColorIn(g, username));
      }
    }
  }

  /** Some brilliant move was counted exactly when the list of games with brilliants is non-empty. */
  lemma {:induction false} BrilliantTotalMatchesList(games: seq<GameRecord>, username: string,
                                                     analyze: string -> Option<seq<PlyEntry>>)
    ensures TotalCounts(games, username, analyze).brilliant > 0 <==> |BrilliantGames(games, username, analyze)| > 0
  {
    if games != [] {
      BrilliantTotalMatchesList(games[..|games| - 1], username, analyze);
    }
  }

  /**
   * The list's brilliant counts add up to the brilliant total, so every
   * brilliant move counted is attributed to one listed game.
   */
  lemma {:induction false} ListedBrilliantsSumToTotal(games: seq<GameRecord>, username: string,
                                                      analyze: string -> Option<seq<PlyEntry>>)
    ensures SumBrilliants(BrilliantGames(games, username, analyze)) == TotalCounts(games, username, analyze).brilliant
  {
    if games != [] {
      var prefix := games[..|games| - 1];
      ListedBrilliantsSumToTotal(prefix, username, analyze);
      var g := games[|games| - 1];
      var c := GameCounts(g, username, analyze);
      var tail := if c.brilliant > 0 then [BrilliantRecord(g, username, c.brilliant)] else [];
      SumBrilliantsAppend(BrilliantGames(prefix, username, analyze), tail);
    }
  }

  /** Every listed game has at least one brilliant move. */
  lemma {:induction false} ListedGamesHaveBrilliants(games: seq<GameRecord>, username: string,
                                                     analyze: string -> Option<seq<PlyEntry>>)
    ensures forall x :: x in BrilliantGames(games, username, analyze) ==> x.brilliants > 0
  {
    if games != [] {
      ListedGamesHaveBrilliants(games[..|games| - 1], username, analyze);
    }
  }

  /** The list is built in game order: listing a concatenation lists each part in turn. */
  lemma {:induction false} BrilliantGamesAppend(a: seq<GameRecord>, b: seq<GameRecord>, username: string,
                                                analyze: string -> Option<seq<PlyEntry>>)
    ensures BrilliantGames(a + b, username, analyze)
            == BrilliantGames(a, username, analyze) + BrilliantGames(b, username, analyze)
  {
    if b == [] {
      assert a + b == a;
    } else {
      var front, last := b[..|b| - 1], b[|b| - 1];
      assert b == front + [last];
      assert a + b == (a + front) + [last];
      BrilliantGamesSnoc(a + front, last, username, analyze);
      BrilliantGamesSnoc(front, last, username, analyze);
      BrilliantGamesAppend(a, front, username, analyze);
    }
  }

  lemma BrilliantGamesSnoc(games: seq<GameRecord>, g: GameRecord, username: string,
                           analyze: string -> Option<seq<PlyEntry>>)
    ensures var c := GameCounts(g, username, analyze);
      BrilliantGames(games + [g], username, analyze)
      == BrilliantGames(games, username, analyze) +
         (if c.brilliant > 0 then [BrilliantRecord(g, username, c.brilliant)] else [])
  {
    var all := games + [g];
    assert all[..|all| - 1] == games;
    assert all[|all| - 1] == g;
  }

  function SumBrilliants(list: seq<BrilliantGame>): nat
  {
    if list == [] then 0 else SumBrilliants(list[..|list| - 1]) + list[|list| - 1].brilliants
  }

  lemma {:induction false} SumBrilliantsAppend(a: seq<BrilliantGame>, b: seq<BrilliantGame>)
    ensures SumBrilliants(a + b) == SumBrilliants(a) + SumBrilliants(b)
  {
    if b == [] {
      assert a + b == a;
    } else {
      assert (a + b)[..|a + b| - 1] == a + b[..|b| - 1];
      SumBrilliantsAppend(a, b[..|b| - 1]);
    }
  }

  /**
   * When the game starts with White to move and every push hands the move over,
   * the parity rule picks exactly the plies the player's colour played.
   */
  lemma ParityMatchesMover(game: Game, push: (Position, Move) -> Position, idx: nat, color: Color)
    requires idx < |game.moves|
    requires game.start.turn == White
    requires forall p: Position, m: Move :: push(p, m).turn == p.turn.Opponent()
    ensures IsPlayerMove(idx, color) <==> PositionBefore(game, push, idx).turn == color
  {
    TurnAlternates(game, push, idx);
  }
}
