/** The opening-book probe `is_book_move` and the dictionary it memoises into. */
module BookMemo {
  import opened Wrappers

  /**
   * What a probe of the book file means for the caller: `None` is a probe that
   * raised (unreadable book), which counts as "not book"; `Some(found)` says
   * whether the book holds an entry for the position.
   */
  function BookAnswer(probe: Option<bool>): (r: bool)
    ensures r <==> probe == Some(true)
  {
    match probe
    case Some(found) => found
    case None => false
  }

  /** The caller-owned `cache` dictionary, keyed by FEN. */
  class BookCache {
    var entries: map<string, bool>

    /** A fresh, empty cache (`cache = {}`). */
    constructor ()
      ensures entries == map[]
    {
      entries := map[];
    }

    /** Every stored answer is what probing the book for that FEN yields. */
    ghost predicate Agrees(probe: string -> Option<bool>)
      reads this
    {
      forall fen :: fen in entries ==> entries[fen] == BookAnswer(probe(fen))
    }

    /**
     * `is_book_move`: answer from the cache when the FEN is there; otherwise
     * probe the book, store the answer (False when the probe failed) and return it.
     */
    method IsBookMove(fen: string, probe: string -> Option<bool>) returns (r: bool)
      modifies this
      ensures old(fen in entries) ==> r == old(entries)[fen] && entries == old(entries)
      ensures old(fen !in entries) ==> r == BookAnswer(probe(fen)) && entries == old(entries)[fen := r]
      ensures old(fen !in entries) && probe(fen).None? ==> !r
      ensures fen in entries && entries[fen] == r
      ensures old(Agrees(probe)) ==> Agrees(probe) && r == BookAnswer(probe(fen))
    {
      if fen in entries {
        return entries[fen];
      }
      match probe(fen)
      case Some(found) =>
        r := found;
        entries := entries[fen := r];
      case None =>
        entries := entries[fen := false];
        r := false;
    }
  }
}
