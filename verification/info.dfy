/** `GameInfo`, the view of a game returned by the "info" query and as the
    workflow's result. */
module Info {
  import opened Wrappers
  import opened Turns
  import opened Colors
  import opened Chess

  /** `validMoves` is None where `NewInfoFromGame` leaves the slice nil, which JSON
      encodes as null rather than as an empty list. */
  datatype GameInfo = GameInfo(
    fen: string,
    outcome: Outcome,
    howEnded: Method,
    board: string,
    turn: Turn,
    color: Color,
    validMoves: Option<seq<string>>
  )

  /** Encodes each move from the game's position, keeping their order. */
  function EncodeMoves<G, M>(rules: Rules<G, M>, g: G, moves: seq<M>): (r: seq<string>)
    ensures |r| == |moves|
    ensures forall i :: 0 <= i < |moves| ==> r[i] == rules.encode(g, moves[i])
  {
    if moves == [] then [] else [rules.encode(g, moves[0])] + EncodeMoves(rules, g, moves[1..])
  }

  /** `validMoves`: the legal moves of the side to move, in UCI notation. */
  function ValidMoves<G, M>(rules: Rules<G, M>, g: G): (r: seq<string>)
    ensures |r| == |rules.validMoves(g)|
    ensures forall i :: 0 <= i < |r| ==> r[i] == rules.encode(g, rules.validMoves(g)[i])
  {
    EncodeMoves(rules, g, rules.validMoves(g))
  }

  /** `NewInfoFromGame`: the view copies the game, colour and turn, and lists
      the legal moves exactly when it is the user's turn. */
  function NewInfoFromGame<G, M>(rules: Rules<G, M>, g: G, c: Color, t: Turn): (info: GameInfo)
    ensures info.validMoves.Some? <==> t == User
    ensures info.validMoves.Some? ==> info.validMoves.value == ValidMoves(rules, g)
    ensures info.fen == rules.fen(g) && info.board == rules.board(g)
    ensures info.outcome == rules.outcome(g) && info.howEnded == rules.howEnded(g)
    ensures info.turn == t && info.color == c
  {
    var info := GameInfo(rules.fen(g), rules.outcome(g), rules.howEnded(g), rules.board(g), t, c, None);
    if t == User then info.(validMoves := Some(ValidMoves(rules, g))) else info
  }
}
