# chessAnalyzer move-quality pipeline, in Dafny

This project models the move-classification core of the chessAnalyzer backend. That core is the
Python module `chessBackend/chess_analyzer.py` plus the per-player tally in
`chessBackend/analyze_games.py`. It proves properties of that model.

- **MoveQuality**: `determine_move_quality`. `book` wins over everything, then `forced`. Then comes a
  ladder on the absolute evaluation swing, with inclusive upper bounds 20/50/100/300. Last is the
  "brilliant" override. `DetermineMoveQuality`'s contract states the brilliant case as an
  if-and-only-if over the alternative evaluations themselves, not over the `min` the code computes.
- **Material**: `count_material`. It is a loop over the squares, proved equal to a reference sum of
  piece values. `SacrificeTest` is the sacrifice test of the move loop.
- **Moves**: what a legal move does to the pieces: a normal move with optional promotion, en passant,
  and castling. With it the model proves that the mover's own material never drops across its own
  move. So the sacrifice test never fires, and no move of a game analysed this way is "brilliant".
- **BookMemo**: `is_book_move`, a class around the caller's cache dictionary. The cache is keyed by
  FEN, and a failed book probe stores and returns False.
- **GameAnalysis**: `analyze_game` from the `positions` list onward:
  - collecting the engine results into `eval_cache`;
  - the per-move loop: the book probe only for the first ten plies, the forced flag, the evaluations
    of the alternatives, `delta`/`abs_delta`, the sacrifice test and the classification;
  - `get_moves_needing_review`.
- **BrilliantTally**: `analyze_games_for_brilliants`. It counts one player's labels by index parity,
  keeps running totals, and builds the list of games that have brilliant moves.

The model follows the code as written. In particular:

- `book` is tested before `forced`.
- The swing is `abs(eval_after - eval_before)` from White's side. It is neither relative to the mover
  nor clamped at zero.
- A forced move also needs the mover to be in check.
- "brilliant" overrides any ladder label, including "blunder".
- "excellent", "great" and "miss" are never produced, so the tally's "great" counter is always 0.
- `eval_after` is passed as `played_eval`, so the +150 floor is from White's side. A Black move can
  be brilliant only if it leaves White clearly better (`BrilliantNeedsWhiteAdvantage`).
- The evaluation cache is filled only from the futures submitted for the main-line positions. Its
  keys are then only those positions' FENs (`CollectedKeysFromPositions`). An alternative's
  position is a key only if its FEN equals one of them. When none does, every alternative reads as
  None, so "brilliant" is ruled out a second way (`NoBrilliantFromMainLineCache`).

Integers are Python's unbounded `int`, so there is nothing to wrap. Every `%` is taken on a
non-negative index, where Python and Dafny agree.

## Model

| member | source | states |
|---|---|---|
| `Material.PieceValue` | chessBackend/chess_analyzer.py:100-107 | the piece-value table: at most 9, zero exactly for the king, at least 3 for knight, bishop, rook and queen |
| `Material.CountMaterial` | chessBackend/chess_analyzer.py:97-117 | each colour's total is the sum of the values of that colour's pieces over all squares; totals are non-negative |
| `Material.SacrificeTest` | chessBackend/chess_analyzer.py:201-212 | the test is true iff the mover's material after the move is strictly less than before |
| `Material.MaterialOfUpdate` | chessBackend/chess_analyzer.py:109-116 | changing one square changes a side's total by exactly the difference of the two squares' values |
| `Material.MaterialOfConcat` | chessBackend/chess_analyzer.py:109-116 | the count is additive over a split of the squares |
| `Material.MaterialBounded` | chessBackend/chess_analyzer.py:97-117 | a side's total is at most nine per square |
| `Moves.OwnMoveKeepsMaterial` | chessBackend/chess_analyzer.py:201-212 | a legal move never lowers the mover's own material, as counted by the material counter |
| `Moves.OwnMoveIsNeverSacrifice` | chessBackend/chess_analyzer.py:201-212 | hence the sacrifice condition is false for every legal move |
| `MoveQuality.NameIsProduced` | chessBackend/chess_analyzer.py:34-65 | every label is one of the eight strings book, forced, best, good, inaccuracy, mistake, blunder, brilliant, never excellent, great or miss |
| `MoveQuality.NameInjective` | chessBackend/chess_analyzer.py:34-65 | distinct labels are distinct strings |
| `MoveQuality.Ladder` | chessBackend/chess_analyzer.py:42-51 | best iff swing at most 20, good iff in (20, 50], inaccuracy iff in (50, 100], mistake iff in (100, 300], blunder iff above 300 |
| `MoveQuality.LadderMonotone` | chessBackend/chess_analyzer.py:42-51 | a larger swing never gets a milder label |
| `MoveQuality.Min` | chessBackend/chess_analyzer.py:61 | Python `min`: the result is an element and is at most every element |
| `MoveQuality.AltDiffs` | chessBackend/chess_analyzer.py:59 | the list of differences has at most one entry per alternative, and every difference is non-negative |
| `MoveQuality.AltDiffsFacts` | chessBackend/chess_analyzer.py:59-60 | the list of differences is non-empty iff some alternative has an evaluation; all differences reach a bound iff every evaluated alternative is that far from the played evaluation |
| `MoveQuality.DetermineMoveQuality` | chessBackend/chess_analyzer.py:34-65 | book if is_book whatever else holds; otherwise forced if forced; otherwise brilliant iff sacrifice, both evaluations supplied, some alternative evaluated, every evaluated alternative at least 150 from the played evaluation, and played evaluation at least 150; otherwise the ladder label |
| `MoveQuality.NeverExcellentGreatOrMiss` | chessBackend/chess_analyzer.py:34-65 | the classifier never yields excellent, great or miss |
| `BookMemo.BookAnswer` | chessBackend/chess_analyzer.py:24-31 | a probe means "book" only when it succeeded and found an entry; a failed probe means False |
| `BookMemo.BookCache.constructor` | chessBackend/chess_analyzer.py:13-14 | a fresh cache is empty |
| `BookMemo.BookCache.IsBookMove` | chessBackend/chess_analyzer.py:11-31 | a hit returns the stored value and leaves the cache unchanged; a miss probes, stores the answer under the FEN and returns it; a failed probe stores and returns False; afterwards the FEN is cached; a cache that agreed with the book still agrees, so the answer is the book's |
| `GameAnalysis.BuildPositions` | chessBackend/chess_analyzer.py:132-141 | one position more than moves: the start, then the position after each successive move |
| `GameAnalysis.CollectEvaluations` | chessBackend/chess_analyzer.py:161-166 | the cache is the result of storing each completed (fen, score) in completion order, skipping futures that raised |
| `GameAnalysis.CollectedIsOrderFree` | chessBackend/chess_analyzer.py:150-166 | when each score is the engine's score for its FEN, the cache maps exactly the completed FENs to their scores, for any completion order |
| `GameAnalysis.EvalGet` | chessBackend/chess_analyzer.py:183 | `dict.get`: a missing FEN reads as None, a present one as its stored score |
| `GameAnalysis.Deltas` | chessBackend/chess_analyzer.py:196-200 | both are 0 when either evaluation is missing; otherwise delta is after minus before, from White's side; abs_delta is its absolute value |
| `GameAnalysis.SwingIsUnsigned` | chessBackend/chess_analyzer.py:196-200 | swapping the two evaluations negates delta and keeps abs_delta: the swing takes no account of the mover |
| `GameAnalysis.IsForced` | chessBackend/chess_analyzer.py:182 | forced iff the mover is in check and the legal-move list is exactly the played move |
| `GameAnalysis.AltEvals` | chessBackend/chess_analyzer.py:185-192 | one evaluation per legal move other than the played one: as many as the legal moves when the played move is not among them, never more |
| `GameAnalysis.CollectAltEvals` | chessBackend/chess_analyzer.py:185-192 | the inner loop yields the evaluation after each legal alternative, in legal-move order, skipping the played move |
| `GameAnalysis.PlyResult` | chessBackend/chess_analyzer.py:173-223 | the entry for one move has ply i+1 and the move's SAN; is_book iff i < 10 and the book holds the position; a book entry is labelled book; otherwise a forced move is labelled forced, and a move that is not forced is labelled neither book nor forced |
| `GameAnalysis.PlyResultLabel` | chessBackend/chess_analyzer.py:196-217 | a move that is neither book nor forced is brilliant iff the brilliant condition holds of the sacrifice test, the evaluation after the move (as played_eval) and the alternatives' evaluations, and otherwise gets the ladder label of the unclamped White-side swing between the evaluations before and after the move |
| `GameAnalysis.Analysis` | chessBackend/chess_analyzer.py:168-225 | exactly one entry per move, in move order, with ply i+1; is_book holds iff i < 10 and the book holds the position; a book entry is labelled book |
| `GameAnalysis.AnalyzeMove` | chessBackend/chess_analyzer.py:173-223 | one iteration of the loop yields the entry for that move; for i < 10 the book cache gains the position's FEN mapped to the book's answer and nothing else changes, for i >= 10 it is left untouched; the cache keeps agreeing with the book |
| `GameAnalysis.AnalyzeGame` | chessBackend/chess_analyzer.py:168-225 | the loop's output is the analysis above, though it consults and fills the book cache as it goes |
| `GameAnalysis.NeedsReview` | chessBackend/chess_analyzer.py:234 | a quality needs review iff its label is one of inaccuracy, mistake, blunder, brilliant |
| `GameAnalysis.ReviewFilterMembers` | chessBackend/chess_analyzer.py:233-239 | an entry is kept iff it is in the analysis and its quality is inaccuracy, mistake, blunder or brilliant |
| `GameAnalysis.ReviewFilterAppend` | chessBackend/chess_analyzer.py:233-239 | filtering commutes with concatenation, so the kept entries stay in analysis order |
| `GameAnalysis.MovesNeedingReview` | chessBackend/chess_analyzer.py:234-239 | the append loop returns the filtered list |
| `GameAnalysis.GetMovesNeedingReview` | chessBackend/chess_analyzer.py:228-239 | the result is the filtered analysis of the game: exactly its entries needing review, in order |
| `GameAnalysis.ForcedExactly` | chessBackend/chess_analyzer.py:180-182 | for a move outside the book (ply index 10 or later, or no book entry), the entry is labelled forced iff the mover is in check and the move is the only legal move, whatever the evaluations |
| `GameAnalysis.BrilliantNeedsWhiteAdvantage` | chessBackend/chess_analyzer.py:214-217 | an entry labelled brilliant has a cached evaluation after the move, and it is at least +150 from White's side, whoever moved |
| `GameAnalysis.NoBrilliantUnderChessRules` | chessBackend/chess_analyzer.py:201-217 | when the move is well formed and push applies it as a chess move, its entry is never brilliant |
| `GameAnalysis.UncachedAlternativesReadNone` | chessBackend/chess_analyzer.py:185-192 | when no alternative's position is a cache key, every alternative evaluation is None |
| `GameAnalysis.NoBrilliantWithoutCachedAlternatives` | chessBackend/chess_analyzer.py:147-164 | when the cache holds none of the alternatives' positions (it is filled only from the main-line positions), the move is not labelled brilliant |
| `GameAnalysis.CollectedKeysFromPositions` | chessBackend/chess_analyzer.py:147-164 | when every completed future evaluated one of the given positions, every key of the cache is one of those positions' FENs |
| `GameAnalysis.NoBrilliantFromMainLineCache` | chessBackend/chess_analyzer.py:147-217 | when the cache is collected from futures over the given positions and no alternative of the move reaches one of those FENs, the move is not labelled brilliant |
| `GameAnalysis.TurnAlternates` | chessBackend/chess_analyzer.py:139-141 | with White to move at the start and the turn passing at every push, White is to move before exactly the even-indexed moves |
| `BrilliantTally.Lower` | chessBackend/analyze_games.py:74 | lower-casing keeps the length and lower-cases each character |
| `BrilliantTally.LowerIdempotent` | chessBackend/analyze_games.py:74 | lower-casing twice equals lower-casing once |
| `BrilliantTally.PlayerColor` | chessBackend/analyze_games.py:74 | the player is White iff White's name equals the queried name ignoring case, otherwise Black |
| `BrilliantTally.PlayerColorIgnoresCase` | chessBackend/analyze_games.py:74 | the colour does not change when either name is lower-cased first |
| `BrilliantTally.Opponent` | chessBackend/analyze_games.py:75 | the opponent is Black's name when the player is White and White's name otherwise |
| `BrilliantTally.IsPlayerMove` | chessBackend/analyze_games.py:91-92 | an entry is the player's iff its index is even exactly when the player is White, so each entry belongs to exactly one colour |
| `BrilliantTally.CountPlayerQualities` | chessBackend/analyze_games.py:89-105 | each counter equals the number of the player's entries (even index for White, odd for Black) that carry that label |
| `BrilliantTally.GreatNeverCounted` | chessBackend/analyze_games.py:98-99 | the great counter of any analysis is 0 |
| `BrilliantTally.CountsWithinPlayerMoves` | chessBackend/analyze_games.py:89-105 | the labels are exclusive, so the five counters sum to at most the player's number of moves |
| `BrilliantTally.Tallied` | chessBackend/analyze_games.py:63-65 | a tallied game has a pgn present and non-empty; a missing pgn reads as empty and is skipped |
| `BrilliantTally.BrilliantRecord` | chessBackend/analyze_games.py:114-121 | the record carries the game's brilliant count and the player's colour, the opponent is the other colour's name ("Unknown" when absent), the end time defaults to 0 and the url to empty |
| `BrilliantTally.TallyGame` | chessBackend/analyze_games.py:63-121 | a game is skipped iff its pgn is empty or its analysis raised; otherwise it yields its counters, plus a record iff it has a brilliant move |
| `BrilliantTally.AnalyzeGamesForBrilliants` | chessBackend/analyze_games.py:43-156 | no result when there are no games; otherwise games_analyzed is the number of games, each total is the sum of the per-game counters over the tallied games, and the list holds the tallied games with brilliant moves in game order |
| `BrilliantTally.TotalsAdd` | chessBackend/analyze_games.py:107-111 | totals are additive over a split of the game list |
| `BrilliantTally.TotalsSnoc` | chessBackend/analyze_games.py:107-111 | one more game adds exactly its counters to the totals |
| `BrilliantTally.SkippedGameContributesNothing` | chessBackend/analyze_games.py:63-65 | a game with an empty pgn or a failed analysis changes neither the totals nor the list |
| `BrilliantTally.TotalGreatIsZero` | chessBackend/analyze_games.py:108 | the great total is always 0 |
| `BrilliantTally.BrilliantTotalMatchesList` | chessBackend/analyze_games.py:107-121 | the brilliant total is positive iff the list of games with brilliants is non-empty |
| `BrilliantTally.ListedBrilliantsSumToTotal` | chessBackend/analyze_games.py:113-121 | the brilliant counts of the listed games add up to the brilliant total |
| `BrilliantTally.ListedGamesHaveBrilliants` | chessBackend/analyze_games.py:113-121 | every listed game has at least one brilliant move |
| `BrilliantTally.BrilliantGamesAppend` | chessBackend/analyze_games.py:113-121 | the list of a concatenation is the concatenation of the lists, so game order is kept |
| `BrilliantTally.ParityMatchesMover` | chessBackend/analyze_games.py:90-92 | when the game starts with White to move, the parity rule picks exactly the moves of the player's colour |

## Left out

- `evaluate_position` and the Stockfish process (chessBackend/chess_analyzer.py:69-94) are an
  external engine. Its scores, including mate scores near ±10000, reach the model only as the map from
  FEN to an optional integer.
- The `ProcessPoolExecutor` fan-out and `max_workers` (chessBackend/chess_analyzer.py:152-160) are
  concurrency. Completion order from `as_completed` is an input sequence of `CollectEvaluations`.
- PGN parsing, legal-move generation, SAN, FEN and `push` belong to the python-chess library. The
  parsed game is the `Game` input. A position's FEN, turn and check flag are fields of `Position`.
  Legal-move generation, `push` and SAN are the `Oracle` functions. `chess.Board(fen)` is modelled by the position's own board, and the
  `is not None` test on it is always true.
- The polyglot book reader is the `bookProbe` oracle, a pure function of the FEN. The error print is
  left out.
- `get_moves_needing_review` and `analyze_game` take a parsed game and a finished evaluation cache,
  not PGN text and paths. Environment-variable defaults are left out.
- In the tally, `analyze_game` is the parameter `analyze`, where `None` stands for an analysis that
  raised. `get_recent_games` (HTTP), printing and date formatting are left out; a listed game keeps
  the raw `end_time`.
- GameRecord: a field of a game record is either present with its value or absent (`None`, read
  with the source's default). JSON nulls and a non-dict `white` or `black` field are not modelled.
  With such input the source raises outside its `try` (chessBackend/analyze_games.py:68 and 74), and
  the whole run aborts.
- BrilliantTally.Lower: lower-cases only ASCII `A`-`Z`, while Python's `str.lower` also folds
  non-ASCII letters.
- Moves.WellFormed: castling has the king and rook land on two empty squares distinct from their
  origins, so Chess960 castling onto an occupied origin square is not covered.
- `chessBackend/gpt_review.py` (an OpenAI call) and `chessBackend/server.py` (HTTP routing) are not
  part of this model.
