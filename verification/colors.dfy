/** The `Color` value type (the user's side) and its JSON encoding. */
module Colors {
  import opened Wrappers
  import opened Errors
  import opened Json

  /** The chess library's colours: NoColor is the zero value. */
  datatype Color = NoColor | White | Black

  /** The chess library's display name of a colour. */
  function Name(c: Color): string {
    match c
    case White => "White"
    case Black => "Black"
    case NoColor => "No Color"
  }

  /** `Color.MarshalJSON`: the JSON string of the colour's display name. */
  function ColorMarshal(c: Color): (j: Json)
    ensures j.JString? && j.text != ""
  {
    JString(Name(c))
  }

  /** Go's `unicode.ToLower` on one character, for every character whose lower
      case is ASCII: the ASCII capitals, the dotted capital I (U+0130) and the
      Kelvin sign (U+212A). Every other character is left as it is, which
      agrees with Go on whether the result is an ASCII character. */
  function LowerChar(c: char): char {
    if 'A' <= c <= 'Z' then (c as int + 32) as char
    else if c == '\U{0130}' then 'i'
    else if c == '\U{212A}' then 'k'
    else c
  }

  /** `strings.ToLower`, character by character. */
  function Lower(s: string): (r: string)
    ensures |r| == |s|
    ensures forall i :: 0 <= i < |s| ==> r[i] == LowerChar(s[i])
  {
    if s == [] then [] else [LowerChar(s[0])] + Lower(s[1..])
  }

  /** `Color.UnmarshalJSON`: the name is matched after lower-casing; anything
      unrecognised is NoColor and not an error. A blob that is not a string is
      an error and the receiver keeps its value. */
  function ColorUnmarshal(blob: Json): (r: Result<Color, Error>)
    ensures r.Failure? <==> blob.JOther?
    ensures blob.JNull? ==> r == Success(NoColor)
  {
    match DecodeString(blob)
    case Failure(e) => Failure(e)
    case Success(str) =>
      var c :=
        match Lower(str)
        case "white" => White
        case "w" => White
        case "black" => Black
        case "b" => Black
        case _ => NoColor;
      Success(c)
  }

  /** A lower-case ASCII word, such as the colour names decoded above. */
  predicate IsLowerWord(w: string) {
    forall i :: 0 <= i < |w| ==> 'a' <= w[i] <= 'z'
  }

  /** `c` is one of the ways of writing the lower-case letter `l` that
      lower-case to it: itself, its capital, or the one non-ASCII capital
      that Go lower-cases to it. */
  predicate SpellsLetter(c: char, l: char)
    requires 'a' <= l <= 'z'
  {
    || c == l
    || c as int == l as int - 32
    || (l == 'i' && c == '\U{0130}')
    || (l == 'k' && c == '\U{212A}')
  }

  /** `s` spells the lower-case word `w` in any mix of cases. */
  predicate SpellsIgnoringCase(s: string, w: string)
    requires IsLowerWord(w)
  {
    |s| == |w| && forall i :: 0 <= i < |s| ==> SpellsLetter(s[i], w[i])
  }

  /** Lower-casing gives a lower-case word exactly when the string spells it
      in some mix of cases. */
  lemma LowerIsWord(s: string, w: string)
    requires IsLowerWord(w)
    ensures Lower(s) == w <==> SpellsIgnoringCase(s, w)
  {
  }

  /** Colour decoding ignores case: "white" or "w" in any case gives White,
      "black" or "b" gives Black, and every other string gives NoColor. */
  lemma ColorDecodeIgnoresCase(s: string)
    ensures ColorUnmarshal(JString(s)) == Success(White)
      <==> SpellsIgnoringCase(s, "white") || SpellsIgnoringCase(s, "w")
    ensures ColorUnmarshal(JString(s)) == Success(Black)
      <==> SpellsIgnoringCase(s, "black") || SpellsIgnoringCase(s, "b")
    ensures ColorUnmarshal(JString(s)) == Success(NoColor)
      <==> (&& !SpellsIgnoringCase(s, "white") && !SpellsIgnoringCase(s, "w")
            && !SpellsIgnoringCase(s, "black") && !SpellsIgnoringCase(s, "b"))
  {
    LowerIsWord(s, "white");
    LowerIsWord(s, "w");
    LowerIsWord(s, "black");
    LowerIsWord(s, "b");
  }

  /** Decoding the encoding of a colour gives back the colour. */
  lemma ColorRoundTrip(c: Color)
    ensures ColorUnmarshal(ColorMarshal(c)) == Success(c)
  {
    match c
    case White => assert Lower(Name(c)) == "white";
    case Black => assert Lower(Name(c)) == "black";
    case NoColor => assert Lower(Name(c))[0] == 'n';
  }
}
