/** Setting up a session: the workflow's parameters, the colour pick and the
    choice of who moves first. */
module Setup {
  import opened Turns
  import opened Colors

  /** `GameWorkflowParams`: the requested colour (NoColor for a random pick)
      and the starting FEN ("" for the standard start). */
  datatype Params = Params(color: Color, fen: string)

  /** `PickColor`. The Go code draws `draw` uniformly from {0, 1} inside a
      recorded side effect and uses it to index [White, Black]; here the draw
      is a parameter. An explicit colour is kept. */
  function PickColor(p: Params, draw: nat): (r: Params)
    requires draw < 2
    ensures r.fen == p.fen
    ensures p.color != NoColor ==> r == p
    ensures r.color != NoColor
    ensures p.color == NoColor ==> (r.color == White <==> draw == 0)
  {
    if p.color != NoColor then p
    else
      var colors := [White, Black];
      p.(color := colors[draw])
  }

  /** Once picked, the colour stays picked: picking again, whatever the new
      draw, changes nothing. */
  lemma PickColorOnce(p: Params, d1: nat, d2: nat)
    requires d1 < 2 && d2 < 2
    ensures PickColor(PickColor(p, d1), d2) == PickColor(p, d1)
  {
  }

  /** The machine moves first exactly when the user plays Black. */
  function FirstTurn(c: Color): (t: Turn)
    ensures t == Machine <==> c == Black
  {
    if c == Black then Machine else User
  }
}
