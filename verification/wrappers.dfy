/** Option and Result, the two failure-carrying types the model uses in
    place of Go's nil values and `error` returns. */
module Wrappers {

  datatype Option<+T> = None | Some(value: T)

  datatype Result<+R, +E> = Success(value: R) | Failure(error: E)
}

/** The errors a game session can report. */
module Errors {

  datatype Error =
    | NotAString            // json.Unmarshal could not decode the blob into a Go string
    | InvalidFen(fen: string)       // chess.FEN rejected the starting position
    | IllegalMove(move: string)     // chess.Game.MoveStr rejected a move
    | ActivityFailed(reason: string) // the "play" activity returned an error
}

/** The JSON blobs handed to the UnmarshalJSON methods, abstracted to the one
    distinction both decoders make: is it a JSON string, null, or anything else. */
module Json {
  import opened Wrappers
  import opened Errors

  datatype Json =
    | JString(text: string)
    | JNull
    | JOther  // a number, object, array, boolean, or a malformed blob

  /** `json.Unmarshal(blob, &str)` with `str` starting out empty: a JSON string
      gives its text, null leaves `str` empty and is not an error, anything
      else is an error. */
  function DecodeString(blob: Json): (r: Result<string, Error>)
    ensures r.Failure? <==> blob.JOther?
    ensures blob.JString? ==> r == Success(blob.text)
    ensures blob.JNull? ==> r == Success("")
  {
    match blob
    case JString(text) => Success(text)
    case JNull => Success("")
    case JOther => Failure(NotAString)
  }
}
