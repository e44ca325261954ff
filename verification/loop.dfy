/** The game loop of `GameWorkflow` as a pure step function. Each iteration
    checks the outcome, lets the machine or the user move, and hands the turn
    over unless the move failed. What the workflow engine delivers from outside
    (activity results and signals) is an explicit input. */
module Loop {
  import opened Wrappers
  import opened Errors
  import opened Turns
  import opened Colors
  import opened Chess

  /** A signal sent to the session: a move in UCI notation, or resignation. */
  datatype Signal = MoveSignal(move: string) | ResignSignal

  /** What the "play" activity returned for the machine's move. */
  datatype Reply = Played(move: string) | ActivityError(reason: string)

  /** The inputs not yet consumed: activity results in the order they come
      back, and signals in the order the selector hands them out. Signals sent
      during the machine's turn wait in their channel. */
  datatype Env = Env(replies: seq<Reply>, signals: seq<Signal>)

  function Size(env: Env): nat {
    |env.replies| + |env.signals|
  }

  /** Further input arriving after `env`. */
  function Append(env: Env, more: Env): (r: Env)
    ensures Size(r) == Size(env) + Size(more)
  {
    Env(env.replies + more.replies, env.signals + more.signals)
  }

  /** The loop's state: the game, whose turn it is and the user's colour. */
  datatype Session<G> = Session(game: G, turn: Turn, color: Color)

  /** What one iteration that did not abort did. */
  datatype Entry =
    | Moved(side: Turn, move: string) // a move was applied
    | Resigned                      // the user resigned
    | Skipped                       // an empty move string: nothing was applied
    | Rejected(move: string)        // the library rejected the user's move

  /** Every iteration that did not fail hands the turn over. */
  predicate Flips(e: Entry) {
    !e.Rejected?
  }

  datatype Iteration<G> =
    | Advanced(next: Session<G>, rest: Env, entry: Entry)
    | Suspended                          // the input this turn needs has not arrived
    | Aborted(error: Error, rest: Env)   // the machine could not move

  /** The loop is blocked: the side to move has no input waiting. */
  predicate Waits<G>(s: Session<G>, env: Env) {
    || (s.turn == Machine && |env.replies| == 0)
    || (s.turn == User && |env.signals| == 0)
  }

  /** `machinesMove`: the activity's error, or the move it chose applied to
      the game, which fails if the library rejects it. */
  function MachinesMove<G, M>(rules: Rules<G, M>, g: G, reply: Reply): (r: Result<G, Error>)
    ensures reply.ActivityError? ==> r == Failure(ActivityFailed(reply.reason))
    ensures reply.Played? ==> r == MoveStr(rules, g, reply.move)
  {
    match reply
    case ActivityError(reason) => Failure(ActivityFailed(reason))
    case Played(move) => MoveStr(rules, g, move)
  }

  /** One iteration of the loop body. On the machine's turn it consumes one
      activity result; on the user's turn one signal. Resigning never sets the
      move request, so, like an empty move, it reaches the shift. */
  function Step<G, M>(rules: Rules<G, M>, s: Session<G>, env: Env): (it: Iteration<G>)
    ensures it.Suspended? <==> Waits(s, env)
    ensures !it.Suspended? ==> Size(it.rest) + 1 == Size(env)
    ensures it.Aborted? ==> s.turn == Machine
    ensures it.Advanced? ==> it.next.color == s.color
    ensures it.Advanced? && !Flips(it.entry) ==> it.next == s && s.turn == User
    ensures it.Advanced? && Flips(it.entry) ==> it.next.turn == Shift(s.turn)
    ensures it.Advanced? && it.entry.Moved? ==> it.entry.side == s.turn
  {
    if s.turn == Machine then
      if |env.replies| == 0 then Suspended
      else
        var rest := env.(replies := env.replies[1..]);
        match MachinesMove(rules, s.game, env.replies[0])
        case Failure(e) => Aborted(e, rest)
        case Success(g) => Advanced(Session(g, Shift(s.turn), s.color), rest, Moved(Machine, env.replies[0].move))
    else
      if |env.signals| == 0 then Suspended
      else
        var rest := env.(signals := env.signals[1..]);
        match env.signals[0]
        case ResignSignal =>
          Advanced(s.(game := rules.resign(s.game, s.color), turn := Shift(s.turn)), rest, Resigned)
        case MoveSignal(move) =>
          if move == "" then Advanced(s.(turn := Shift(s.turn)), rest, Skipped)
          else
            match MoveStr(rules, s.game, move)
            case Failure(_) => Advanced(s, rest, Rejected(move))
            case Success(g) => Advanced(s.(game := g, turn := Shift(s.turn)), rest, Moved(User, move))
  }

  /** How the loop stopped: the game ended and the workflow returns normally,
      the machine failed and the workflow returns the error, or the loop is
      blocked waiting for input. `rest` is the input left unconsumed. */
  datatype Final<G> =
    | Finished(session: Session<G>, rest: Env)
    | Failed(session: Session<G>, error: Error, rest: Env)
    | Waiting(session: Session<G>, rest: Env)

  /** The game loop: iterate while the outcome is NoOutcome. */
  function Run<G, M>(rules: Rules<G, M>, s: Session<G>, env: Env): (r: Final<G>)
    ensures r.Finished? <==> rules.outcome(r.session.game) != NoOutcome
    ensures r.Failed? ==> r.session.turn == Machine
    ensures r.Waiting? ==> Waits(r.session, r.rest)
    ensures r.session.color == s.color
    ensures Size(r.rest) <= Size(env)
    ensures rules.outcome(s.game) != NoOutcome ==> r == Finished(s, env)
    decreases Size(env)
  {
    if rules.outcome(s.game) != NoOutcome then Finished(s, env)
    else
      match Step(rules, s, env)
      case Suspended => Waiting(s, env)
      case Aborted(e, rest) => Failed(s, e, rest)
      case Advanced(next, rest, _) => Run(rules, next, rest)
  }

  /** The iterations the loop went through, one entry each, leaving out an
      iteration that aborted. */
  function History<G, M>(rules: Rules<G, M>, s: Session<G>, env: Env): (h: seq<Entry>)
    ensures |h| <= Size(env)
    decreases Size(env)
  {
    if rules.outcome(s.game) != NoOutcome then []
    else
      match Step(rules, s, env)
      case Advanced(next, rest, entry) => [entry] + History(rules, next, rest)
      case _ => []
  }

  /** The number of entries that handed the turn over. */
  function CountFlips(h: seq<Entry>): (n: nat)
    ensures n <= |h|
  {
    if h == [] then 0 else (if Flips(h[0]) then 1 else 0) + CountFlips(h[1..])
  }

  /** Turn parity: the loop ends on the starting turn shifted once for every
      iteration that was not a rejected user move, and every consumed input
      is accounted for by one iteration (the failing reply by the abort). */
  lemma {:induction false} RunTurnParity<G, M>(rules: Rules<G, M>, s: Session<G>, env: Env)
    ensures Run(rules, s, env).session.turn == ShiftN(s.turn, CountFlips(History(rules, s, env)))
    ensures Size(env) - Size(Run(rules, s, env).rest)
      == |History(rules, s, env)| + (if Run(rules, s, env).Failed? then 1 else 0)
    decreases Size(env)
  {
    if rules.outcome(s.game) == NoOutcome {
      match Step(rules, s, env)
      case Suspended =>
      case Aborted(_, _) =>
      case Advanced(next, rest, entry) =>
        RunTurnParity(rules, next, rest);
        var h := History(rules, next, rest);
        assert History(rules, s, env) == [entry] + h;
        assert ([entry] + h)[1..] == h;
        if Flips(entry) {
          ShiftNAdd(s.turn, 1, CountFlips(h));
        }
    }
  }

  /** The loop runs at most one iteration, and shifts the turn at most once,
      per input it consumed. */
  lemma HistoryWithinConsumed<G, M>(rules: Rules<G, M>, s: Session<G>, env: Env)
    ensures |History(rules, s, env)| <= Size(env) - Size(Run(rules, s, env).rest)
    ensures CountFlips(History(rules, s, env)) <= Size(env) - Size(Run(rules, s, env).rest)
  {
    RunTurnParity(rules, s, env);
  }

  /** Consuming one more input is the same whether or not more input has
      arrived behind it. */
  lemma StepAppend<G, M>(rules: Rules<G, M>, s: Session<G>, env: Env, more: Env)
    requires !Waits(s, env)
    ensures match Step(rules, s, env)
      case Advanced(next, rest, entry) => Step(rules, s, Append(env, more)) == Advanced(next, Append(rest, more), entry)
      case Aborted(e, rest) => Step(rules, s, Append(env, more)) == Aborted(e, Append(rest, more))
      case Suspended => false
  {
  }
  /** Input that arrives later never changes what the loop has already done:
      a finished or failed run stays as it was, and a blocked run resumes
      from where it stopped. */
  lemma {:induction false} RunExtends<G, M>(rules: Rules<G, M>, s: Session<G>, env: Env, more: Env)
    ensures var r := Run(rules, s, env);
      Run(rules, s, Append(env, more))
        == if r.Waiting? then Run(rules, r.session, Append(r.rest, more))
           else r.(rest := Append(r.rest, more))
    decreases Size(env)
  {
    if rules.outcome(s.game) == NoOutcome && !Waits(s, env) {
      StepAppend(rules, s, env, more);
      match Step(rules, s, env)
      case Aborted(_, _) =>
      case Advanced(next, rest, _) =>
        RunExtends(rules, next, rest, more);
    }
  }

  /** On the user's turn, a non-empty move the library rejects leaves the game
      and the turn as they were, and the loop goes on to the next signal. */
  lemma RejectedMoveChangesNothing<G, M>(rules: Rules<G, M>, s: Session<G>, env: Env)
    requires rules.outcome(s.game) == NoOutcome
    requires s.turn == User && |env.signals| > 0
    requires env.signals[0].MoveSignal? && env.signals[0].move != ""
    requires rules.moveStr(s.game, env.signals[0].move).None?
    ensures Step(rules, s, env) == Advanced(s, env.(signals := env.signals[1..]), Rejected(env.signals[0].move))
    ensures Run(rules, s, env) == Run(rules, s, env.(signals := env.signals[1..]))
  {
  }

  /** On the user's turn, an accepted move is applied and hands the turn to
      the machine. */
  lemma AcceptedMoveShiftsTurn<G, M>(rules: Rules<G, M>, s: Session<G>, env: Env)
    requires s.turn == User && |env.signals| > 0
    requires env.signals[0].MoveSignal? && env.signals[0].move != ""
    requires rules.moveStr(s.game, env.signals[0].move).Some?
    ensures Step(rules, s, env)
      == Advanced(Session(rules.moveStr(s.game, env.signals[0].move).value, Machine, s.color),
                  env.(signals := env.signals[1..]), Moved(User, env.signals[0].move))
  {
  }

  /** Resigning records the user's resignation and, because the move request
      stays empty, also hands the turn to the machine; if the library now
      reports an outcome the loop ends there. */
  lemma ResignShiftsTurn<G, M>(rules: Rules<G, M>, s: Session<G>, env: Env)
    requires rules.outcome(s.game) == NoOutcome
    requires s.turn == User && |env.signals| > 0 && env.signals[0] == ResignSignal
    ensures Step(rules, s, env)
      == Advanced(Session(rules.resign(s.game, s.color), Machine, s.color),
                  env.(signals := env.signals[1..]), Resigned)
    ensures rules.outcome(rules.resign(s.game, s.color)) != NoOutcome ==>
      Run(rules, s, env)
        == Finished(Session(rules.resign(s.game, s.color), Machine, s.color), env.(signals := env.signals[1..]))
  {
  }

  /** An empty move string applies nothing but still hands the turn to the
      machine. */
  lemma EmptyMoveShiftsTurn<G, M>(rules: Rules<G, M>, s: Session<G>, env: Env)
    requires s.turn == User && |env.signals| > 0 && env.signals[0] == MoveSignal("")
    ensures Step(rules, s, env) == Advanced(s.(turn := Machine), env.(signals := env.signals[1..]), Skipped)
  {
  }

  /** A machine move that is applied hands the turn to the user. */
  lemma MachineMoveShiftsTurn<G, M>(rules: Rules<G, M>, s: Session<G>, env: Env)
    requires s.turn == Machine && |env.replies| > 0
    requires MachinesMove(rules, s.game, env.replies[0]).Success?
    ensures Step(rules, s, env)
      == Advanced(Session(MachinesMove(rules, s.game, env.replies[0]).value, User, s.color),
                  env.(replies := env.replies[1..]), Moved(Machine, env.replies[0].move))
  {
  }

  /** A failed machine move ends the loop at once with the error: the turn is
      still the machine's and the game is as it was. */
  lemma MachineFailureStops<G, M>(rules: Rules<G, M>, s: Session<G>, env: Env)
    requires rules.outcome(s.game) == NoOutcome
    requires s.turn == Machine && |env.replies| > 0
    requires MachinesMove(rules, s.game, env.replies[0]).Failure?
    ensures Run(rules, s, env)
      == Failed(s, MachinesMove(rules, s.game, env.replies[0]).error, env.(replies := env.replies[1..]))
  {
  }
}
