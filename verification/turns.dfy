/** The `Turn` value type: whose move it is, and its JSON encoding. */
module Turns {
  import opened Wrappers
  import opened Errors
  import opened Json

  /** The Go code stores a turn as a byte, User being 0 and Machine 1; no other
      byte value is ever constructed. */
  datatype Turn = User | Machine

  function Code(t: Turn): bv8 {
    if t == User then 0 else 1
  }

  /** Hands the turn to the other side by flipping the low bit of its code. */
  function Shift(t: Turn): (r: Turn)
    ensures Code(r) == Code(t) ^ 1
    ensures t == User <==> r == Machine
  {
    if Code(t) ^ 1 == 0 then User else Machine
  }

  lemma ShiftTwice(t: Turn)
    ensures Shift(Shift(t)) == t
  {
  }

  /** The turn after `n` shifts. */
  function ShiftN(t: Turn, n: nat): Turn {
    if n == 0 then t else Shift(ShiftN(t, n - 1))
  }

  /** Only the parity of the number of shifts matters. */
  lemma {:induction false} ShiftNParity(t: Turn, n: nat)
    ensures ShiftN(t, n) == if n % 2 == 0 then t else Shift(t)
  {
    if n > 0 {
      ShiftNParity(t, n - 1);
      ShiftTwice(t);
    }
  }

  lemma {:induction false} ShiftNAdd(t: Turn, m: nat, n: nat)
    ensures ShiftN(ShiftN(t, m), n) == ShiftN(t, m + n)
  {
    if n > 0 {
      ShiftNAdd(t, m, n - 1);
    }
  }

  function TurnString(t: Turn): (s: string)
    ensures s != ""
    ensures s == "User" <==> t == User
  {
    match t
    case User => "User"
    case Machine => "Machine"
  }

  /** `Turn.MarshalJSON`: the JSON string of the turn's name. */
  function TurnMarshal(t: Turn): (j: Json)
    ensures j.JString?
  {
    JString(TurnString(t))
  }

  /** `Turn.UnmarshalJSON`: only the exact name "Machine" gives Machine; every
      other string, and null, falls back to the zero value User. A blob that
      is not a string is an error and the receiver keeps its value. */
  function TurnUnmarshal(blob: Json): (r: Result<Turn, Error>)
    ensures r.Failure? <==> blob.JOther?
    ensures r == Success(Machine) <==> blob == JString("Machine")
    ensures r == Success(User) <==> blob.JNull? || (blob.JString? && blob.text != "Machine")
  {
    match DecodeString(blob)
    case Failure(e) => Failure(e)
    case Success(str) =>
      var turn := if str == "User" then User else if str == "Machine" then Machine else User;
      Success(turn)
  }

  lemma TurnRoundTrip(t: Turn)
    ensures TurnUnmarshal(TurnMarshal(t)) == Success(t)
  {
  }
}
