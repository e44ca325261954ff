/** `GameWorkflow` from its parameters to its return value, and the "info"
    query answered along the way. */
module Workflow {
  import opened Wrappers
  import opened Errors
  import opened Turns
  import opened Colors
  import opened Chess
  import opened Info
  import opened Setup
  import opened Loop

  /** The set-up before the loop: pick the colour, build the game from the
      FEN (the standard start when it is empty) and decide who goes first. */
  function Start<G, M>(rules: Rules<G, M>, params: Params, draw: nat): (r: Result<Session<G>, Error>)
    requires draw < 2
    ensures r.Failure? <==> params.fen != "" && rules.parseFen(params.fen).None?
    ensures r.Failure? ==> r.error == InvalidFen(params.fen)
    ensures r.Success? ==> r.value.game == if params.fen == "" then rules.newGame else rules.parseFen(params.fen).value
    ensures r.Success? ==> r.value.color != NoColor
    ensures r.Success? && params.color != NoColor ==> r.value.color == params.color
    ensures r.Success? ==> (r.value.turn == Machine <==> r.value.color == Black)
  {
    var p := PickColor(params, draw);
    var game :=
      if p.fen == "" then Some(rules.newGame)
      else rules.parseFen(p.fen);
    match game
    case None => Failure(InvalidFen(p.fen))
    case Some(g) => Success(Session(g, FirstTurn(p.color), p.color))
  }

  /** The "info" query handler: the view of the session as it stands. */
  function Query<G, M>(rules: Rules<G, M>, s: Session<G>): (info: GameInfo)
    ensures info.validMoves.Some? <==> s.turn == User
    ensures info.outcome == rules.outcome(s.game)
    ensures info.turn == s.turn && info.color == s.color
  {
    NewInfoFromGame(rules, s.game, s.color, s.turn)
  }

  datatype WorkflowResult =
    | StartFailed(error: Error)            // returned (nil, err): the FEN was rejected
    | Returned(info: GameInfo)             // returned (info, nil): the game is over
    | Errored(info: GameInfo, error: Error) // returned (info, err): the machine could not move
    | Running(view: GameInfo)              // blocked in the loop; the query's answer

  /** The workflow run against the inputs it has received so far. */
  function GameWorkflow<G, M>(rules: Rules<G, M>, params: Params, draw: nat, env: Env): (r: WorkflowResult)
    requires draw < 2
    ensures r.StartFailed? <==> Start(rules, params, draw).Failure?
    ensures r.Returned? ==> r.info.outcome != NoOutcome
    ensures r.Errored? ==> r.info.outcome == NoOutcome && r.info.turn == Machine && r.info.validMoves.None?
    ensures r.Running? ==> r.view.outcome == NoOutcome
    ensures r.Returned? ==> r.info.color != NoColor && (params.color != NoColor ==> r.info.color == params.color)
    ensures r.Errored? ==> r.info.color != NoColor && (params.color != NoColor ==> r.info.color == params.color)
    ensures r.Running? ==> r.view.color != NoColor && (params.color != NoColor ==> r.view.color == params.color)
  {
    match Start(rules, params, draw)
    case Failure(e) => StartFailed(e)
    case Success(s) =>
      match Run(rules, s, env)
      case Finished(last, _) => Returned(Query(rules, last))
      case Failed(last, e, _) => Errored(Query(rules, last), e)
      case Waiting(last, _) => Running(Query(rules, last))
  }

  /** A user playing Black waits for the machine: before the first reply the
      view shows the machine's turn and no moves; after one applied reply it
      is the user's turn with the legal moves listed. */
  lemma BlackWaitsForMachine<G, M>(rules: Rules<G, M>, fen: string, draw: nat, move: string)
    requires draw < 2
    requires Start(rules, Params(Black, fen), draw).Success?
    requires rules.outcome(Start(rules, Params(Black, fen), draw).value.game) == NoOutcome
    ensures var r := GameWorkflow(rules, Params(Black, fen), draw, Env([], []));
      r.Running? && r.view.turn == Machine && r.view.validMoves.None?
    ensures var g := Start(rules, Params(Black, fen), draw).value.game;
      var r := GameWorkflow(rules, Params(Black, fen), draw, Env([Played(move)], []));
      rules.moveStr(g, move).Some? && rules.outcome(rules.moveStr(g, move).value) == NoOutcome ==>
        r.Running? && r.view.turn == User && r.view.validMoves == Some(ValidMoves(rules, rules.moveStr(g, move).value))
  {
    var s := Start(rules, Params(Black, fen), draw).value;
    var env := Env([Played(move)], []);
    if rules.moveStr(s.game, move).Some? && rules.outcome(rules.moveStr(s.game, move).value) == NoOutcome {
      MachineMoveShiftsTurn(rules, s, env);
      var next := Session(rules.moveStr(s.game, move).value, User, Black);
      assert Run(rules, s, env) == Run(rules, next, Env([], []));
      assert Run(rules, next, Env([], [])) == Waiting(next, Env([], []));
    }
  }

  /** Resigning as the first act of a new game as White ends the workflow
      normally, with the turn already handed to the machine. */
  lemma ResignAtOnce<G, M>(rules: Rules<G, M>, fen: string, draw: nat, signals: seq<Signal>)
    requires draw < 2
    requires Start(rules, Params(White, fen), draw).Success?
    requires var g := Start(rules, Params(White, fen), draw).value.game;
      rules.outcome(g) == NoOutcome && rules.outcome(rules.resign(g, White)) != NoOutcome
    ensures var r := GameWorkflow(rules, Params(White, fen), draw, Env([], [ResignSignal] + signals));
      r.Returned? && r.info.turn == Machine && r.info.validMoves.None?
  {
  }
}
