/**
 * The per-move pipeline of `analyze_game` and the review filter
 * `get_moves_needing_review`. The parsed game is the `Game` input; a
 * position's FEN, turn and check flag are fields of `Position`; move
 * generation, `push`, SAN and the book file reach the model through `Oracle`;
 * the engine's scores reach it as the finished evaluation cache.
 */
module GameAnalysis {
  import opened Wrappers
  import opened Chess
  import opened Material
  import opened Moves
  import opened MoveQuality
  import opened BookMemo

  /** The services of the chess library and the opening book. */
  datatype Oracle = Oracle(
    push: (Position, Move) -> Position,
    legalMoves: Position -> seq<Move>,
    san: (Position, Move) -> string,
    bookProbe: string -> Option<bool>)

  /** A parsed game: its starting position and its main-line moves. */
  datatype Game = Game(start: Position, moves: seq<Move>)

  /** One element of the returned `analysis` list. */
  datatype PlyEntry = PlyEntry(ply: nat, san: string, quality: Quality, isBook: bool)

  /** The position before move `i`: the start with the first `i` moves pushed. */
  function PositionBefore(game: Game, push: (Position, Move) -> Position, i: nat): Position
    requires i <= |game.moves|
  {
    if i == 0 then game.start
    else push(PositionBefore(game, push, i - 1), game.moves[i - 1])
  }

  /** The `positions` list: the starting position, then the board after every move. */
  method BuildPositions(game: Game, push: (Position, Move) -> Position) returns (positions: seq<Position>)
    ensures |positions| == |game.moves| + 1
    ensures forall i :: 0 <= i <= |game.moves| ==> positions[i] == PositionBefore(game, push, i)
  {
    var current := game.start;
    positions := [current];
    var i := 0;
    while i < |game.moves|
      invariant 0 <= i <= |game.moves|
      invariant |positions| == i + 1
      invariant current == PositionBefore(game, push, i)
      invariant forall k :: 0 <= k <= i ==> positions[k] == PositionBefore(game, push, k)
    {
      current := push(current, game.moves[i]);
      positions := positions + [current];
      i := i + 1;
    }
  }

  /** What one finished evaluation future hands back: a (fen, score) pair, or an exception. */
  datatype Completion = Done(fen: string, score: Option<int>) | Raised

  /** The evaluation cache after storing the completions in the given order. */
  function Collected(completed: seq<Completion>): map<string, Option<int>>
  {
    if completed == [] then map[]
    else
      var cache := Collected(completed[..|completed| - 1]);
      match completed[|completed| - 1]
      case Done(fen, score) => cache[fen := score]
      case Raised => cache
  }

  /** The collection loop: store each completed future's score under its FEN, skipping futures that raised. */
  method CollectEvaluations(completed: seq<Completion>) returns (cache: map<string, Option<int>>)
    ensures cache == Collected(completed)
  {
    cache := map[];
    var i := 0;
    while i < |completed|
      invariant 0 <= i <= |completed|
      invariant cache == Collected(completed[..i])
    {
      assert completed[..i + 1][..i] == completed[..i];
      if completed[i].Done? {
        cache := cache[completed[i].fen := completed[i].score];
      }
      i := i + 1;
    }
    assert completed[..|completed|] == completed;
  }

  /**
   * Completion order does not matter: when every completion reports the score
   * `evaluate` gives its FEN, the cache maps exactly the completed FENs to
   * their scores.
   */
  lemma {:induction false} CollectedIsOrderFree(completed: seq<Completion>, evaluate: string -> Option<int>)
    requires forall k :: 0 <= k < |completed| && completed[k].Done? ==> completed[k].score == evaluate(completed[k].fen)
    ensures Collected(completed) == map fen | fen in (set k | 0 <= k < |completed| && completed[k].Done? :: completed[k].fen) :: evaluate(fen)
  {
    if completed != [] {
      var n := |completed|;
      CollectedIsOrderFree(completed[..n - 1], evaluate);
      assert forall k :: 0 <= k < n - 1 ==> completed[..n - 1][k] == completed[k];
      var before := set k | 0 <= k < n - 1 && completed[k].Done? :: completed[k].fen;
      var all := set k | 0 <= k < n && completed[k].Done? :: completed[k].fen;
      if completed[n - 1].Done? {
        assert all == before + {completed[n - 1].fen};
      } else {
        assert all == before;
      }
    }
  }

  /** `eval_cache.get(fen)`: a missing key reads as `None`. */
  function EvalGet(cache: map<string, Option<int>>, fen: string): (score: Option<int>)
    ensures fen !in cache ==> score == None
    ensures fen in cache ==> score == cache[fen]
  {
    if fen in cache then cache[fen] else None
  }

  /** `delta` and `abs_delta` of one move. */
  datatype Swing = Swing(delta: int, absDelta: nat)

  /** Both are 0 unless both evaluations exist; otherwise the White-side change and its size. */
  function Deltas(before: Option<int>, after: Option<int>): (s: Swing)
    ensures before.None? || after.None? ==> s == Swing(0, 0)
    ensures before.Some? && after.Some? ==> s.delta == after.value - before.value
    ensures s.absDelta == Abs(s.delta)
  {
    if before.Some? && after.Some? then
      var delta := after.value - before.value;
      Swing(delta, Abs(delta))
    else Swing(0, 0)
  }

  /** The swing is unsigned: swapping the two evaluations leaves `abs_delta` unchanged. */
  lemma SwingIsUnsigned(before: Option<int>, after: Option<int>)
    ensures Deltas(before, after).absDelta == Deltas(after, before).absDelta
    ensures Deltas(before, after).delta == -Deltas(after, before).delta
  {
  }

  /** A move is forced when the mover is in check and it is the one legal move. */
  predicate IsForced(inCheck: bool, legal: seq<Move>, move: Move)
    ensures IsForced(inCheck, legal, move) <==> inCheck && legal == [move]
  {
    inCheck && |legal| == 1 && legal[0] == move
  }

  /** The alternatives' evaluations: every legal move other than the played one, in order. */
  function AltEvals(pos: Position, legal: seq<Move>, move: Move, cache: map<string, Option<int>>,
                    push: (Position, Move) -> Position): (alts: seq<Option<int>>)
    ensures |alts| <= |legal|
    ensures move !in legal ==> |alts| == |legal|
  {
    if legal == [] then []
    else
      var earlier := AltEvals(pos, legal[..|legal| - 1], move, cache, push);
      var alt := legal[|legal| - 1];
      assert legal == legal[..|legal| - 1] + [alt];
      if alt == move then earlier else earlier + [EvalGet(cache, push(pos, alt).fen)]
  }

  /** The entry the loop appends for move `i`, played from `pos`. */
  function PlyResult(i: nat, pos: Position, move: Move, cache: map<string, Option<int>>, oracle: Oracle): (r: PlyEntry)
    ensures r.ply == i + 1 && r.san == oracle.san(pos, move)
    ensures r.isBook <==> i < 10 && BookAnswer(oracle.bookProbe(pos.fen))
    ensures r.isBook ==> r.quality == Book
    ensures !r.isBook && IsForced(pos.inCheck, oracle.legalMoves(pos), move) ==> r.quality == Forced
    ensures !r.isBook && !IsForced(pos.inCheck, oracle.legalMoves(pos), move) ==>
      r.quality != Book && r.quality != Forced
  {
    var after := oracle.push(pos, move);
    var evalBefore := EvalGet(cache, pos.fen);
    var evalAfter := EvalGet(cache, after.fen);
    var swing := Deltas(evalBefore, evalAfter);
    var isBook := i < 10 && BookAnswer(oracle.bookProbe(pos.fen));
    var legal := oracle.legalMoves(pos);
    var forced := IsForced(pos.inCheck, legal, move);
    var sacrifice := IsSacrifice(pos.board, after.board, pos.turn);
    var alts := AltEvals(pos, legal, move, cache, oracle.push);
    var quality := DetermineMoveQuality(swing.absDelta, swing.delta, pos.turn, isBook, forced, sacrifice,
                                        evalAfter, evalBefore, Some(alts));
    PlyEntry(i + 1, oracle.san(pos, move), quality, isBook)
  }

  /**
   * The label of a move that is neither book nor forced: brilliant exactly when
   * the brilliant condition holds of the sacrifice test, the evaluation after
   * the move (passed as the played evaluation) and the alternatives'
   * evaluations; otherwise the ladder label of the White-side swing.
   */
  lemma PlyResultLabel(i: nat, pos: Position, move: Move, cache: map<string, Option<int>>, oracle: Oracle)
    ensures var r := PlyResult(i, pos, move, cache, oracle);
      var after := oracle.push(pos, move);
      var alts := AltEvals(pos, oracle.legalMoves(pos), move, cache, oracle.push);
      !r.isBook && !IsForced(pos.inCheck, oracle.legalMoves(pos), move) ==>
        (r.quality == Brilliant <==>
         BrilliantCondition(IsSacrifice(pos.board, after.board, pos.turn), EvalGet(cache, after.fen), Some(alts)))
    ensures var r := PlyResult(i, pos, move, cache, oracle);
      var after := oracle.push(pos, move);
      var alts := AltEvals(pos, oracle.legalMoves(pos), move, cache, oracle.push);
      !r.isBook && !IsForced(pos.inCheck, oracle.legalMoves(pos), move) &&
      !BrilliantCondition(IsSacrifice(pos.board, after.board, pos.turn), EvalGet(cache, after.fen), Some(alts)) ==>
        r.quality == Ladder(Deltas(EvalGet(cache, pos.fen), EvalGet(cache, after.fen)).absDelta)
  {
  }

  /** The whole analysis: one entry per move, in move order. */
  function Analysis(game: Game, cache: map<string, Option<int>>, oracle: Oracle): (r: seq<PlyEntry>)
    ensures |r| == |game.moves|
    ensures forall i :: 0 <= i < |r| ==> r[i].ply == i + 1
    ensures forall i :: 0 <= i < |r| ==>
      (r[i].isBook <==> i < 10 && BookAnswer(oracle.bookProbe(PositionBefore(game, oracle.push, i).fen)))
    ensures forall i :: 0 <= i < |r| && r[i].isBook ==> r[i].quality == Book
  {
    seq(|game.moves|, i requires 0 <= i < |game.moves| =>
      PlyResult(i, PositionBefore(game, oracle.push, i), game.moves[i], cache, oracle))
  }

  /** The inner loop: the cached evaluation after each legal move other than the played one. */
  method CollectAltEvals(current: Position, legal: seq<Move>, move: Move, evalCache: map<string, Option<int>>,
                         push: (Position, Move) -> Position) returns (altEvals: seq<Option<int>>)
    ensures altEvals == AltEvals(current, legal, move, evalCache, push)
  {
    altEvals := [];
    var j := 0;
    while j < |legal|
      invariant 0 <= j <= |legal|
      invariant altEvals == AltEvals(current, legal[..j], move, evalCache, push)
    {
      assert legal[..j + 1][..j] == legal[..j];
      var alt := legal[j];
      if alt != move {
        var altPosition := push(current, alt);
        altEvals := altEvals + [EvalGet(evalCache, altPosition.fen)];
      }
      j := j + 1;
    }
    assert legal[..|legal|] == legal;
  }

  /** One iteration of the move loop: the entry for move `i`, played from `current`. */
  method AnalyzeMove(i: nat, current: Position, move: Move, evalCache: map<string, Option<int>>, oracle: Oracle,
                     bookCache: BookCache) returns (entry: PlyEntry)
    requires bookCache.Agrees(oracle.bookProbe)
    modifies bookCache
    ensures bookCache.Agrees(oracle.bookProbe)
    ensures i >= 10 ==> bookCache.entries == old(bookCache.entries)
    ensures i < 10 ==>
      bookCache.entries == old(bookCache.entries)[current.fen := BookAnswer(oracle.bookProbe(current.fen))]
    ensures entry == PlyResult(i, current, move, evalCache, oracle)
  {
    var san := oracle.san(current, move);
    var sideToMove := current.turn;
    var fenBefore := current.fen;
    var isBook := false;
    if i < 10 {
      isBook := bookCache.IsBookMove(fenBefore, oracle.bookProbe);
    }
    var inCheck := current.inCheck;
    var legal := oracle.legalMoves(current);
    var forced := inCheck && |legal| == 1 && legal[0] == move;
    var evalBefore := EvalGet(evalCache, fenBefore);
    var altEvals := CollectAltEvals(current, legal, move, evalCache, oracle.push);
    var after := oracle.push(current, move);
    var evalAfter := EvalGet(evalCache, after.fen);
    var delta, absDelta := 0, 0;
    if evalBefore.Some? && evalAfter.Some? {
      delta := evalAfter.value - evalBefore.value;
      absDelta := Abs(delta);
    }
    var isSacrifice := SacrificeTest(current.board, after.board, sideToMove);
    var quality := DetermineMoveQuality(absDelta, delta, sideToMove, isBook, forced, isSacrifice,
                                        evalAfter, evalBefore, Some(altEvals));
    entry := PlyEntry(i + 1, san, quality, isBook);
  }

  /** The move loop of `analyze_game`, over an already filled evaluation cache. */
  method AnalyzeGame(game: Game, evalCache: map<string, Option<int>>, oracle: Oracle) returns (analysis: seq<PlyEntry>)
    ensures analysis == Analysis(game, evalCache, oracle)
  {
    analysis := [];
    var bookCache := new BookCache();
    var current := game.start;
    var i := 0;
    while i < |game.moves|
      invariant 0 <= i <= |game.moves|
      invariant current == PositionBefore(game, oracle.push, i)
      invariant |analysis| == i
      invariant forall k :: 0 <= k < i ==>
        analysis[k] == PlyResult(k, PositionBefore(game, oracle.push, k), game.moves[k], evalCache, oracle)
      invariant bookCache.Agrees(oracle.bookProbe)
    {
      var move := game.moves[i];
      var entry := AnalyzeMove(i, current, move, evalCache, oracle, bookCache);
      assert entry == PlyResult(i, PositionBefore(game, oracle.push, i), game.moves[i], evalCache, oracle);
      analysis := analysis + [entry];
      current := oracle.push(current, move);
      i := i + 1;
    }
    AnalysisFromEntries(game, evalCache, oracle, analysis);
  }

  /** A list holding, at every index, that move's entry is the analysis. */
  lemma AnalysisFromEntries(game: Game, cache: map<string, Option<int>>, oracle: Oracle, analysis: seq<PlyEntry>)
    requires |analysis| == |game.moves|
    requires forall k :: 0 <= k < |analysis| ==>
      analysis[k] == PlyResult(k, PositionBefore(game, oracle.push, k), game.moves[k], cache, oracle)
    ensures analysis == Analysis(game, cache, oracle)
  {
  }

  /** The qualities worth a commentary. */
  predicate NeedsReview(q: Quality)
    ensures NeedsReview(q) <==> q.Name() in {"inaccuracy", "mistake", "blunder", "brilliant"}
  {
    q == Inaccuracy || q == Mistake || q == Blunder || q == Brilliant
  }

  /** Reference definition of the filter: the entries needing review, in their order. */
  function ReviewFilter(analysis: seq<PlyEntry>): seq<PlyEntry>
  {
    if analysis == [] then []
    else
      var last := analysis[|analysis| - 1];
      ReviewFilter(analysis[..|analysis| - 1]) + (if NeedsReview(last.quality) then [last] else [])
  }

  /** The filter keeps exactly the entries whose quality needs review. */
  lemma {:induction false} ReviewFilterMembers(analysis: seq<PlyEntry>)
    ensures forall e :: e in ReviewFilter(analysis) <==> e in analysis && NeedsReview(e.quality)
  {
    if analysis != [] {
      var n := |analysis|;
      ReviewFilterMembers(analysis[..n - 1]);
      assert analysis == analysis[..n - 1] + [analysis[n - 1]];
    }
  }

  /** The filter commutes with concatenation, so it keeps the analysis order. */
  lemma {:induction false} ReviewFilterAppend(a: seq<PlyEntry>, b: seq<PlyEntry>)
    ensures ReviewFilter(a + b) == ReviewFilter(a) + ReviewFilter(b)
  {
    if b == [] {
      assert a + b == a;
    } else {
      var n := |b|;
      assert (a + b)[..|a + b| - 1] == a + b[..n - 1];
      ReviewFilterAppend(a, b[..n - 1]);
    }
  }

  /** The append loop of `get_moves_needing_review`. */
  method MovesNeedingReview(analysis: seq<PlyEntry>) returns (review: seq<PlyEntry>)
    ensures review == ReviewFilter(analysis)
  {
    review := [];
    var i := 0;
    while i < |analysis|
      invariant 0 <= i <= |analysis|
      invariant review == ReviewFilter(analysis[..i])
    {
      assert analysis[..i + 1][..i] == analysis[..i];
      var entry := analysis[i];
      if NeedsReview(entry.quality) {
        review := review + [entry];
      }
      i := i + 1;
    }
    assert analysis[..|analysis|] == analysis;
  }

  /** `get_moves_needing_review`: analyse the game, then keep the entries needing review. */
  method GetMovesNeedingReview(game: Game, evalCache: map<string, Option<int>>, oracle: Oracle)
    returns (review: seq<PlyEntry>)
    ensures review == ReviewFilter(Analysis(game, evalCache, oracle))
    ensures forall e :: e in review <==> e in Analysis(game, evalCache, oracle) && NeedsReview(e.quality)
  {
    var analysis := AnalyzeGame(game, evalCache, oracle);
    review := MovesNeedingReview(analysis);
    ReviewFilterMembers(analysis);
  }

  /**
   * Outside the book, a move is classified forced exactly when the mover is in
   * check and it is the single legal move, whatever the evaluations say.
   */
  lemma ForcedExactly(i: nat, pos: Position, move: Move, cache: map<string, Option<int>>, oracle: Oracle)
    requires i >= 10 || oracle.bookProbe(pos.fen) != Some(true)
    ensures PlyResult(i, pos, move, cache, oracle).quality == Forced <==>
      pos.inCheck && oracle.legalMoves(pos) == [move]
  {
    var legal := oracle.legalMoves(pos);
    assert IsForced(pos.inCheck, legal, move) <==> pos.inCheck && legal == [move];
  }

  /**
   * A brilliant entry needs the evaluation after the move to be at least +150
   * from White's side, whichever side moved: a Black move can be brilliant only
   * when it leaves White clearly better.
   */
  lemma BrilliantNeedsWhiteAdvantage(i: nat, pos: Position, move: Move, cache: map<string, Option<int>>,
                                     oracle: Oracle)
    ensures PlyResult(i, pos, move, cache, oracle).quality == Brilliant ==>
      var score := EvalGet(cache, oracle.push(pos, move).fen);
      score.Some? && score.value >= 150
  {
  }

  /**
   * When the oracle's push moves pieces as a legal chess move does, the
   * sacrifice test never fires, and so the move is not classified brilliant.
   */
  lemma NoBrilliantUnderChessRules(i: nat, pos: Position, move: Move, cache: map<string, Option<int>>,
                                   oracle: Oracle)
    requires WellFormed(pos.board, pos.turn, move)
    requires oracle.push(pos, move).board == Apply(pos.board, pos.turn, move)
    ensures PlyResult(i, pos, move, cache, oracle).quality != Brilliant
  {
    OwnMoveIsNeverSacrifice(pos.board, pos.turn, move);
  }

  /**
   * When no alternative's position has a cached evaluation, every alternative
   * reads as None.
   */
  lemma {:induction false} UncachedAlternativesReadNone(pos: Position, legal: seq<Move>, move: Move,
                                                       cache: map<string, Option<int>>,
                                                       push: (Position, Move) -> Position)
    requires forall alt :: alt in legal && alt != move ==> push(pos, alt).fen !in cache
    ensures forall k :: 0 <= k < |AltEvals(pos, legal, move, cache, push)| ==>
      AltEvals(pos, legal, move, cache, push)[k].None?
  {
    if legal != [] {
      var prefix := legal[..|legal| - 1];
      assert forall alt :: alt in prefix ==> alt in legal;
      UncachedAlternativesReadNone(pos, prefix, move, cache, push);
    }
  }

  /**
   * The cache is filled only with main-line positions. When none of the
   * alternatives' positions is among them, the brilliant test has no evaluated
   * alternative to compare with, and the move is not classified brilliant.
   */
  lemma NoBrilliantWithoutCachedAlternatives(i: nat, pos: Position, move: Move, cache: map<string, Option<int>>,
                                             oracle: Oracle)
    requires forall alt :: alt in oracle.legalMoves(pos) && alt != move ==> oracle.push(pos, alt).fen !in cache
    ensures PlyResult(i, pos, move, cache, oracle).quality != Brilliant
  {
    UncachedAlternativesReadNone(pos, oracle.legalMoves(pos), move, cache, oracle.push);
  }

  /** The FENs of a list of positions. */
  function FensOf(positions: seq<Position>): set<string>
  {
    set p | p in positions :: p.fen
  }

  /**
   * Every key of the evaluation cache is the FEN of some completed future:
   * when each future evaluated one of `positions`, the cache holds no other key.
   */
  lemma {:induction false} CollectedKeysFromPositions(completed: seq<Completion>, positions: seq<Position>)
    requires forall j :: 0 <= j < |completed| && completed[j].Done? ==> completed[j].fen in FensOf(positions)
    ensures forall fen :: fen in Collected(completed) ==> fen in FensOf(positions)
  {
    if completed != [] {
      var prefix := completed[..|completed| - 1];
      assert forall j :: 0 <= j < |prefix| ==> prefix[j] == completed[j];
      CollectedKeysFromPositions(prefix, positions);
    }
  }

  /**
   * The cache is filled from the futures submitted for `positions` (the start
   * and the position after each main-line move). When no alternative of a move
   * leads to one of those positions' FENs, the move is not classified brilliant.
   */
  lemma NoBrilliantFromMainLineCache(i: nat, pos: Position, move: Move, completed: seq<Completion>,
                                     positions: seq<Position>, oracle: Oracle)
    requires forall j :: 0 <= j < |completed| && completed[j].Done? ==> completed[j].fen in FensOf(positions)
    requires forall alt :: alt in oracle.legalMoves(pos) && alt != move ==>
      oracle.push(pos, alt).fen !in FensOf(positions)
    ensures PlyResult(i, pos, move, Collected(completed), oracle).quality != Brilliant
  {
    CollectedKeysFromPositions(completed, positions);
    NoBrilliantWithoutCachedAlternatives(i, pos, move, Collected(completed), oracle);
  }

  /** When play starts with White and every push hands the move over, White moves at the even indices. */
  lemma {:induction false} TurnAlternates(game: Game, push: (Position, Move) -> Position, i: nat)
    requires i <= |game.moves|
    requires game.start.turn == White
    requires forall p: Position, m: Move :: push(p, m).turn == p.turn.Opponent()
    ensures PositionBefore(game, push, i).turn == (if i % 2 == 0 then White else Black)
  {
    if i > 0 {
      TurnAlternates(game, push, i - 1);
    }
  }
}
