/**
 * The chess vocabulary the analyzer relies on. Boards, positions and moves are
 * abstract values here: legal-move generation, FEN and SAN rendering and move
 * application belong to the python-chess library and reach the model as oracles.
 */
module Chess {
  import opened Wrappers

  datatype Color = White | Black {
    function Opponent(): (c: Color)
      ensures c != this
    {
      if this == White then Black else White
    }
  }

  datatype PieceType = Pawn | Knight | Bishop | Rook | Queen | King

  datatype Piece = Piece(color: Color, kind: PieceType)

  /** One entry per square; `None` is an empty square. */
  type Board = seq<Option<Piece>>

  /** A move, described by the squares it touches. */
  datatype Move =
    | Normal(from: nat, to: nat, promotion: Option<PieceType>)
    | EnPassant(from: nat, to: nat, captured: nat)
    | Castle(kingFrom: nat, kingTo: nat, rookFrom: nat, rookTo: nat)

  /**
   * A position as the analyzer sees it: its FEN (the cache key), the pieces,
   * the side to move and whether that side is in check.
   */
  datatype Position = Position(fen: string, board: Board, turn: Color, inCheck: bool)
}
