/**
 * A small model of what playing a move does to the pieces, enough to reason
 * about the sacrifice test: a move relocates the mover's own pieces, may
 * promote a pawn and may remove one enemy piece, and nothing more.
 */
module Moves {
  import opened Wrappers
  import opened Chess
  import opened Material

  /** The shape of a legal move by `mover` on `board` (which squares hold what). */
  predicate WellFormed(board: Board, mover: Color, m: Move)
  {
    match m
    case Normal(from, to, promotion) =>
      && from < |board| && to < |board| && from != to
      && board[from].Some? && board[from].value.color == mover
      && (board[to].None? || board[to].value.color != mover)
      && (promotion.Some? ==>
            board[from].value.kind == Pawn && promotion.value != Pawn && promotion.value != King)
    case EnPassant(from, to, captured) =>
      && from < |board| && to < |board| && captured < |board|
      && from != to && from != captured && to != captured
      && board[from] == Some(Piece(mover, Pawn))
      && board[to].None?
      && board[captured] == Some(Piece(mover.Opponent(), Pawn))
    case Castle(kingFrom, kingTo, rookFrom, rookTo) =>
      && kingFrom < |board| && kingTo < |board| && rookFrom < |board| && rookTo < |board|
      && kingFrom != rookFrom && kingTo != rookTo
      && kingTo != kingFrom && kingTo != rookFrom && rookTo != kingFrom && rookTo != rookFrom
      && board[kingFrom] == Some(Piece(mover, King))
      && board[rookFrom] == Some(Piece(mover, Rook))
      && board[kingTo].None? && board[rookTo].None?
  }

  /** The board after `mover` plays `m`. */
  function Apply(board: Board, mover: Color, m: Move): (after: Board)
    requires WellFormed(board, mover, m)
    ensures |after| == |board|
  {
    match m
    case Normal(from, to, promotion) =>
      var kind := promotion.GetOr(board[from].value.kind);
      board[from := None][to := Some(Piece(mover, kind))]
    case EnPassant(from, to, captured) =>
      board[from := None][captured := None][to := Some(Piece(mover, Pawn))]
    case Castle(kingFrom, kingTo, rookFrom, rookTo) =>
      board[kingFrom := None][rookFrom := None][kingTo := Some(Piece(mover, King))][rookTo := Some(Piece(mover, Rook))]
  }

  /** Playing a move never lowers the mover's own material (promotion can raise it). */
  lemma OwnMoveKeepsMaterial(board: Board, mover: Color, m: Move)
    requires WellFormed(board, mover, m)
    ensures SideMaterial(Apply(board, mover, m), mover) >= SideMaterial(board, mover)
  {
    match m
    case Normal(from, to, promotion) =>
      var kind := promotion.GetOr(board[from].value.kind);
      var b1 := board[from := None];
      MaterialOfUpdate(board, from, None, mover);
      MaterialOfUpdate(b1, to, Some(Piece(mover, kind)), mover);
      assert b1[to] == board[to];
    case EnPassant(from, to, captured) =>
      var b1 := board[from := None];
      var b2 := b1[captured := None];
      MaterialOfUpdate(board, from, None, mover);
      MaterialOfUpdate(b1, captured, None, mover);
      MaterialOfUpdate(b2, to, Some(Piece(mover, Pawn)), mover);
    case Castle(kingFrom, kingTo, rookFrom, rookTo) =>
      var b1 := board[kingFrom := None];
      var b2 := b1[rookFrom := None];
      var b3 := b2[kingTo := Some(Piece(mover, King))];
      MaterialOfUpdate(board, kingFrom, None, mover);
      MaterialOfUpdate(b1, rookFrom, None, mover);
      MaterialOfUpdate(b2, kingTo, Some(Piece(mover, King)), mover);
      MaterialOfUpdate(b3, rookTo, Some(Piece(mover, Rook)), mover);
  }

  /** Hence the sacrifice test, which compares the mover's material across its own move, never fires. */
  lemma OwnMoveIsNeverSacrifice(board: Board, mover: Color, m: Move)
    requires WellFormed(board, mover, m)
    ensures !IsSacrifice(board, Apply(board, mover, m), mover)
  {
    OwnMoveKeepsMaterial(board, mover, m);
  }
}
