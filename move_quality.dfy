/** The move classifier `determine_move_quality`. Scores are centipawns from White's side. */
module MoveQuality {
  import opened Wrappers
  import opened Chess

  /** The labels the classifier can return, each a string in the produced analysis. */
  datatype Quality = Book | Forced | Best | Good | Inaccuracy | Mistake | Blunder | Brilliant {

    /** The label's string in the analysis output. */
    function Name(): string
    {
      match this
      case Book => "book"
      case Forced => "forced"
      case Best => "best"
      case Good => "good"
      case Inaccuracy => "inaccuracy"
      case Mistake => "mistake"
      case Blunder => "blunder"
      case Brilliant => "brilliant"
    }

    /**
     * How bad a ladder label is: 0 for best up to 4 for blunder. Meant only for
     * the ladder's five labels; the others are given 0 without meaning "mild".
     */
    function Severity(): nat
    {
      match this
      case Best => 0
      case Good => 1
      case Inaccuracy => 2
      case Mistake => 3
      case Blunder => 4
      case _ => 0
    }
  }

  /** Every label is one of the eight strings, never one of the chess.com labels the classifier lacks. */
  lemma NameIsProduced(q: Quality)
    ensures q.Name() in {"book", "forced", "best", "good", "inaccuracy", "mistake", "blunder", "brilliant"}
    ensures q.Name() !in {"excellent", "great", "miss", ""}
  {
  }

  /** Distinct labels have distinct names. */
  lemma NameInjective(p: Quality, q: Quality)
    ensures p.Name() == q.Name() ==> p == q
  {
  }

  function Abs(x: int): (r: nat)
    ensures r == x || r == -x
  {
    if x < 0 then -x else x
  }

  /** The threshold ladder, with inclusive upper bounds 20, 50, 100 and 300. */
  function Ladder(absDelta: int): (q: Quality)
    ensures q == Best <==> absDelta <= 20
    ensures q == Good <==> 20 < absDelta <= 50
    ensures q == Inaccuracy <==> 50 < absDelta <= 100
    ensures q == Mistake <==> 100 < absDelta <= 300
    ensures q == Blunder <==> 300 < absDelta
  {
    if absDelta <= 20 then Best
    else if absDelta <= 50 then Good
    else if absDelta <= 100 then Inaccuracy
    else if absDelta <= 300 then Mistake
    else Blunder
  }

  /** A larger swing never earns a milder ladder label. */
  lemma LadderMonotone(a: int, b: int)
    requires a <= b
    ensures Ladder(a).Severity() <= Ladder(b).Severity()
  {
  }

  /** Python's `min` over a non-empty list. */
  function Min(s: seq<int>): (m: int)
    requires |s| > 0
    ensures m in s
    ensures forall x :: x in s ==> m <= x
  {
    if |s| == 1 then s[0]
    else
      var rest := Min(s[1..]);
      assert forall x :: x in s ==> x == s[0] || x in s[1..];
      if s[0] <= rest then s[0] else rest
  }

  /** The distance of the played evaluation from each alternative that has an evaluation, in order. */
  function AltDiffs(played: int, alts: seq<Option<int>>): (diffs: seq<int>)
    ensures |diffs| <= |alts|
    ensures forall x :: x in diffs ==> x >= 0
  {
    if alts == [] then []
    else
      match alts[0]
      case Some(e) => [Abs(played - e)] + AltDiffs(played, alts[1..])
      case None => AltDiffs(played, alts[1..])
  }

  /**
   * The differences are non-empty exactly when some alternative has an
   * evaluation, and all of them reach `bound` exactly when every evaluated
   * alternative is at least `bound` away from the played evaluation.
   */
  lemma {:induction false} AltDiffsFacts(played: int, alts: seq<Option<int>>, bound: int)
    ensures |AltDiffs(played, alts)| > 0 <==> exists k :: 0 <= k < |alts| && alts[k].Some?
    ensures (forall x :: x in AltDiffs(played, alts) ==> x >= bound) <==>
            (forall k :: 0 <= k < |alts| && alts[k].Some? ==> Abs(played - alts[k].value) >= bound)
  {
    if alts != [] {
      AltDiffsFacts(played, alts[1..], bound);
      assert forall k :: 1 <= k < |alts| ==> alts[k] == alts[1..][k - 1];
      assert forall j :: 0 <= j < |alts[1..]| ==> alts[1..][j] == alts[j + 1];
      var rest := AltDiffs(played, alts[1..]);
      if alts[0].Some? {
        var d := Abs(played - alts[0].value);
        assert AltDiffs(played, alts) == [d] + rest;
        assert forall x :: x in [d] + rest <==> x == d || x in rest;
        if forall x :: x in AltDiffs(played, alts) ==> x >= bound {
          assert forall x :: x in rest ==> x >= bound;
          forall k | 0 <= k < |alts| && alts[k].Some?
            ensures Abs(played - alts[k].value) >= bound
          {
            if k > 0 {
              var j := k - 1;
              assert alts[1..][j] == alts[k];
              assert alts[1..][j].Some?;
              assert Abs(played - alts[1..][j].value) >= bound;
            } else {
              assert d in AltDiffs(played, alts);
            }
          }
        }
      }
    }
  }

  /**
   * The brilliant condition, stated over the alternatives directly: a sacrifice,
   * both the played and the alternative evaluations supplied, at least one
   * alternative evaluated, every evaluated alternative at least 150 away from
   * the played evaluation, and the played evaluation itself at least 150.
   */
  predicate BrilliantCondition(isSacrifice: bool, playedEval: Option<int>, altEvals: Option<seq<Option<int>>>)
  {
    && isSacrifice
    && altEvals.Some?
    && playedEval.Some?
    && (exists k :: 0 <= k < |altEvals.value| && altEvals.value[k].Some?)
    && (forall k :: 0 <= k < |altEvals.value| && altEvals.value[k].Some? ==>
          Abs(playedEval.value - altEvals.value[k].value) >= 150)
    && playedEval.value >= 150
  }

  /**
   * `determine_move_quality`. `delta`, `sideToMove` and `bestEval` are accepted
   * and ignored, as in the source.
   */
  function DetermineMoveQuality(absDelta: int, delta: int, sideToMove: Color, isBook: bool, forced: bool,
                                isSacrifice: bool, playedEval: Option<int>, bestEval: Option<int>,
                                altEvals: Option<seq<Option<int>>>): (q: Quality)
    ensures isBook ==> q == Book
    ensures !isBook && forced ==> q == Forced
    ensures !isBook && !forced ==> (q == Brilliant <==> BrilliantCondition(isSacrifice, playedEval, altEvals))
    ensures !isBook && !forced && !BrilliantCondition(isSacrifice, playedEval, altEvals) ==> q == Ladder(absDelta)
  {
    if isBook then Book
    else if forced then Forced
    else
      var quality := Ladder(absDelta);
      if isSacrifice && altEvals.Some? && playedEval.Some? then
        var diffs := AltDiffs(playedEval.value, altEvals.value);
        AltDiffsFacts(playedEval.value, altEvals.value, 150);
        if |diffs| > 0 && Min(diffs) >= 150 && playedEval.value >= 150 then Brilliant else quality
      else quality
  }

  /** None of the chess.com labels "excellent", "great" or "miss" is ever produced. */
  lemma NeverExcellentGreatOrMiss(absDelta: int, delta: int, sideToMove: Color, isBook: bool, forced: bool,
                                  isSacrifice: bool, playedEval: Option<int>, bestEval: Option<int>,
                                  altEvals: Option<seq<Option<int>>>)
    ensures DetermineMoveQuality(absDelta, delta, sideToMove, isBook, forced, isSacrifice, playedEval, bestEval, altEvals).Name()
            !in {"excellent", "great", "miss"}
  {
  }
}
