/**
 * The demo's `color` option type (demo/config.hpp) and its stream operators
 * (demo/main.cpp): `operator>>` lower-cases the extracted token and accepts
 * exactly `red`, `green` and `blue`; `operator<<` writes the upper-case name.
 */
module Colors {
  import opened Wrappers

  datatype Color = Red | Green | Blue

  /** The message of the exception thrown for a token that names no color. */
  const UnknownColor: string := "Unknown color"

  /** `::tolower` in the "C" locale: only 'A'..'Z' change. */
  function ToLowerChar(c: char): char
  {
    if 'A' <= c <= 'Z' then (c as int - 'A' as int + 'a' as int) as char else c
  }

  function Lower(s: string): string
  {
    seq(|s|, i requires 0 <= i < |s| => ToLowerChar(s[i]))
  }

  /** What `operator>>` stores in `c` (Success) or throws (Failure) for an extracted token. */
  function ParseColor(token: string): Result<Color, string>
  {
    var str := Lower(token);
    if str == "red" then Success(Red)
    else if str == "green" then Success(Green)
    else if str == "blue" then Success(Blue)
    else Failure(UnknownColor)
  }

  /** `operator>>`: lower-cases the token in place, then matches it. */
  method ReadColor(token: string) returns (r: Result<Color, string>)
    ensures r == ParseColor(token)
  {
    var str := new char[|token|](i requires 0 <= i < |token| => token[i]);
    for i := 0 to str.Length
      invariant forall j :: 0 <= j < i ==> str[j] == ToLowerChar(token[j])
      invariant forall j :: i <= j < str.Length ==> str[j] == token[j]
    {
      str[i] := ToLowerChar(str[i]);
    }
    assert str[..] == Lower(token);
    if str[..] == "red" {
      r := Success(Red);
    } else if str[..] == "green" {
      r := Success(Green);
    } else if str[..] == "blue" {
      r := Success(Blue);
    } else {
      r := Failure(UnknownColor);
    }
  }

  /** `operator<<`. */
  function ColorToString(c: Color): string
  {
    match c
    case Red => "RED"
    case Green => "GREEN"
    case Blue => "BLUE"
  }

  lemma {:induction false} LowerIdempotent(s: string)
    ensures Lower(Lower(s)) == Lower(s)
  {
    var l := Lower(s);
    assert |Lower(l)| == |l|;
    forall i | 0 <= i < |l| ensures Lower(l)[i] == l[i] {
      assert l[i] == ToLowerChar(s[i]);
    }
  }

  /** Parsing ignores case: a token and its lower-case form parse alike. */
  lemma ParseIgnoresCase(token: string)
    ensures ParseColor(token) == ParseColor(Lower(token))
  {
    LowerIdempotent(token);
  }

  /** The accepted tokens are exactly the case variants of the three rendered names. */
  lemma ParseAcceptsExactlyCaseVariants(token: string, c: Color)
    ensures ParseColor(token) == Success(c) <==> Lower(token) == Lower(ColorToString(c))
  {
    assert Lower("RED") == "red";
    assert Lower("GREEN") == "green";
    assert Lower("BLUE") == "blue";
  }

  /** Every other token fails with "Unknown color". */
  lemma ParseRejectsOtherTokens(token: string)
    ensures ParseColor(token).Failure? <==> Lower(token) !in {"red", "green", "blue"}
    ensures ParseColor(token).Failure? ==> ParseColor(token).error == UnknownColor
  {
  }

  /** Reading back a rendered color gives the same color. */
  lemma ParseRenderRoundTrip(c: Color)
    ensures ParseColor(ColorToString(c)) == Success(c)
  {
    assert Lower("RED") == "red";
    assert Lower("GREEN") == "green";
    assert Lower("BLUE") == "blue";
  }

  /** `RED`, `Red` and `red` all denote the red color. */
  lemma ParseRedSpellings()
    ensures ParseColor("RED") == Success(Red)
    ensures ParseColor("Red") == Success(Red)
    ensures ParseColor("red") == Success(Red)
  {
    assert Lower("RED") == "red";
    assert Lower("Red") == "red";
    assert Lower("red") == "red";
  }
}
