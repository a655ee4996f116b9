/** Material counting (`count_material`) and the sacrifice test built on it. */
module Material {
  import opened Wrappers
  import opened Chess

  /** The piece-value table: pawn 1, knight and bishop 3, rook 5, queen 9, king 0. */
  function PieceValue(kind: PieceType): (v: nat)
    ensures v <= 9
    ensures v == 0 <==> kind == King
    ensures kind != Pawn && kind != King ==> v >= 3
  {
    match kind
    case Pawn => 1
    case Knight => 3
    case Bishop => 3
    case Rook => 5
    case Queen => 9
    case King => 0
  }

  /** What one square contributes to `side`'s material. */
  function SquareValue(square: Option<Piece>, side: Color): nat
  {
    match square
    case None => 0
    case Some(p) => if p.color == side then PieceValue(p.kind) else 0
  }

  /** Reference definition: the sum of the values of `side`'s pieces on `board`. */
  function SideMaterial(board: Board, side: Color): nat
  {
    if board == [] then 0
    else SideMaterial(board[..|board| - 1], side) + SquareValue(board[|board| - 1], side)
  }

  /** The `{'white': ..., 'black': ...}` dictionary that `count_material` returns. */
  datatype Totals = Totals(white: nat, black: nat)

  /** `count_material`: one pass over the squares, adding each piece's value to its colour. */
  method CountMaterial(board: Board) returns (m: Totals)
    ensures m.white == SideMaterial(board, White)
    ensures m.black == SideMaterial(board, Black)
  {
    var white, black := 0, 0;
    var i := 0;
    while i < |board|
      invariant 0 <= i <= |board|
      invariant white == SideMaterial(board[..i], White)
      invariant black == SideMaterial(board[..i], Black)
    {
      var square := board[i];
      if square.Some? {
        var value := PieceValue(square.value.kind);
        if square.value.color == White {
          white := white + value;
        } else {
          black := black + value;
        }
      }
      assert board[..i + 1][..i] == board[..i];
      i := i + 1;
    }
    assert board[..|board|] == board;
    m := Totals(white, black);
  }

  /** The sacrifice condition: the mover has strictly less material after the move. */
  predicate IsSacrifice(before: Board, after: Board, mover: Color)
  {
    SideMaterial(after, mover) < SideMaterial(before, mover)
  }

  /** The sacrifice test of the move loop: count both boards and compare the mover's totals. */
  method SacrificeTest(before: Board, after: Board, mover: Color) returns (sacrifice: bool)
    ensures sacrifice <==> SideMaterial(after, mover) < SideMaterial(before, mover)
  {
    sacrifice := false;
    var materialBefore := CountMaterial(before);
    var materialAfter := CountMaterial(after);
    if mover == White {
      if materialAfter.white < materialBefore.white {
        sacrifice := true;
      }
    } else {
      if materialAfter.black < materialBefore.black {
        sacrifice := true;
      }
    }
  }

  /** Changing one square changes `side`'s material by the difference of the two squares' values. */
  lemma {:induction false} MaterialOfUpdate(board: Board, i: nat, square: Option<Piece>, side: Color)
    requires i < |board|
    ensures SideMaterial(board[i := square], side)
            == SideMaterial(board, side) - SquareValue(board[i], side) + SquareValue(square, side)
  {
    var n := |board|;
    if i == n - 1 {
      assert board[i := square][..n - 1] == board[..n - 1];
    } else {
      MaterialOfUpdate(board[..n - 1], i, square, side);
      assert board[i := square][..n - 1] == board[..n - 1][i := square];
    }
  }

  /** Material of a board split in two is the sum of the parts' material. */
  lemma {:induction false} MaterialOfConcat(a: Board, b: Board, side: Color)
    ensures SideMaterial(a + b, side) == SideMaterial(a, side) + SideMaterial(b, side)
  {
    if b != [] {
      assert (a + b)[..|a + b| - 1] == a + b[..|b| - 1];
      MaterialOfConcat(a, b[..|b| - 1], side);
    } else {
      assert a + b == a;
    }
  }

  /** Each square is worth at most a queen, so a side's material is at most nine per square. */
  lemma {:induction false} MaterialBounded(board: Board, side: Color)
    ensures SideMaterial(board, side) <= 9 * |board|
  {
    if board != [] {
      MaterialBounded(board[..|board| - 1], side);
    }
  }
}
