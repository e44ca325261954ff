/** The chess library the session drives, as an uninterpreted oracle: the
    model never looks inside a game, it only asks the library about it. */
module Chess {
  import opened Wrappers
  import opened Errors
  import opened Colors

  /** Result of a game; NoOutcome ("*") means it is still in progress. */
  datatype Outcome = NoOutcome | WhiteWon | BlackWon | Draw

  /** How the outcome came about. */
  datatype Method =
    | NoMethod | Checkmate | Resignation | DrawOffer | Stalemate
    | ThreefoldRepetition | FivefoldRepetition | FiftyMoveRule
    | SeventyFiveMoveRule | InsufficientMaterial

  /** The library's operations on a game state `G` (which holds the board and
      the recorded outcome) and on its move values `M`. */
  datatype Rules<!G, !M> = Rules(
    moveStr: (G, string) -> Option<G>, // the game after a move in UCI notation, None if rejected
    outcome: G -> Outcome,
    howEnded: G -> Method,      // the method that produced the outcome
    resign: (G, Color) -> G,           // records that the given colour resigned
    fen: G -> string,
    board: G -> string,                // the Unicode drawing of the board
    validMoves: G -> seq<M>,           // legal moves of the side to move
    encode: (G, M) -> string,          // UCI text of a move from the game's position
    parseFen: string -> Option<G>,     // a new game from a FEN, None if the FEN is rejected
    newGame: G                         // a new game from the standard start
  )

  /** `Game.MoveStr` with its error return: a rejected move leaves the game as
      it was and reports the move. */
  function MoveStr<G, M>(rules: Rules<G, M>, g: G, move: string): (r: Result<G, Error>)
    ensures r.Failure? <==> rules.moveStr(g, move).None?
    ensures r.Failure? ==> r.error == IllegalMove(move)
    ensures r.Success? ==> r.value == rules.moveStr(g, move).value
  {
    match rules.moveStr(g, move)
    case None => Failure(IllegalMove(move))
    case Some(g') => Success(g')
  }
}
