/** The two static helpers of the view model that prepare a tool payload:
    `SanitizeJson`, a character filter, and `IsValidJson`, a blank-string gate
    in front of a JSON syntax check. */
module Payload {
  import opened Text

  const ByteOrderMark: char := '\U{FEFF}'
  const LeftDoubleQuote: char := '\U{201C}'
  const RightDoubleQuote: char := '\U{201D}'
  const LeftSingleQuote: char := '\U{2018}'
  const RightSingleQuote: char := '\U{2019}'

  /** The characters the sanitizer lets through as they are: everything but
      the byte-order mark, the typographic quotes and the control characters
      below U+0020 other than tab, line feed and carriage return. */
  predicate IsClean(c: char) {
    && c != ByteOrderMark
    && c != LeftDoubleQuote && c != RightDoubleQuote
    && c != LeftSingleQuote && c != RightSingleQuote
    && (c >= ' ' || c == '\t' || c == '\n' || c == '\r')
  }

  /** What the sanitizer emits for one input character. */
  function SanitizeChar(c: char): (r: string)
    ensures |r| <= 1
    ensures forall k :: 0 <= k < |r| ==> IsClean(r[k])
    ensures r == [c] <==> IsClean(c)
  {
    if c == ByteOrderMark || c == '\0' then ""
    else if c == LeftDoubleQuote || c == RightDoubleQuote then "\""
    else if c == LeftSingleQuote || c == RightSingleQuote then "'"
    else if c < ' ' && c != '\t' && c != '\n' && c != '\r' then ""
    else [c]
  }

  /** The sanitized text: each character's image, in input order. */
  function Sanitized(s: string): (r: string)
    ensures |r| <= |s|
    ensures forall k :: 0 <= k < |r| ==> IsClean(r[k])
  {
    if s == [] then []
    else Sanitized(s[..|s| - 1]) + SanitizeChar(s[|s| - 1])
  }

  /** `SanitizeJson`: empty input is returned as it is; otherwise one pass
      over the characters appending each one's image to a builder. */
  method SanitizeJson(input: string) returns (output: string)
    ensures output == Sanitized(input)
  {
    if input == [] {
      return input;
    }
    var sb := "";
    for i := 0 to |input|
      invariant sb == Sanitized(input[..i])
    {
      var c := input[i];
      assert input[..i + 1][..i] == input[..i];
      if c == ByteOrderMark {
        continue;
      }
      if c == '\0' {
        continue;
      }
      if c == LeftDoubleQuote || c == RightDoubleQuote {
        sb := sb + "\"";
        continue;
      }
      if c == LeftSingleQuote || c == RightSingleQuote {
        sb := sb + "'";
        continue;
      }
      if c < ' ' && c != '\t' && c != '\n' && c != '\r' {
        continue;
      }
      sb := sb + [c];
    }
    assert input[..|input|] == input;
    output := sb;
  }

  /** Sanitizing a concatenation sanitizes each part. */
  lemma {:induction false} SanitizedAppend(a: string, b: string)
    ensures Sanitized(a + b) == Sanitized(a) + Sanitized(b)
  {
    if b == [] {
      assert a + b == a;
    } else {
      assert (a + b)[..|a + b| - 1] == a + b[..|b| - 1];
      SanitizedAppend(a, b[..|b| - 1]);
    }
  }

  /** A text made only of clean characters comes through unchanged. */
  lemma {:induction false} SanitizedOfClean(s: string)
    requires forall k :: 0 <= k < |s| ==> IsClean(s[k])
    ensures Sanitized(s) == s
  {
    if s != [] {
      SanitizedOfClean(s[..|s| - 1]);
      assert SanitizeChar(s[|s| - 1]) == [s[|s| - 1]];
      assert s[..|s| - 1] + [s[|s| - 1]] == s;
    }
  }

  /** Sanitizing twice is sanitizing once. */
  lemma SanitizeIdempotent(s: string)
    ensures Sanitized(Sanitized(s)) == Sanitized(s)
  {
    SanitizedOfClean(Sanitized(s));
  }

  /** Printable ASCII text (U+0020..U+007E) is left as it is. */
  lemma PrintableAsciiUnchanged(s: string)
    requires forall k :: 0 <= k < |s| ==> ' ' <= s[k] <= '~'
    ensures Sanitized(s) == s
  {
    SanitizedOfClean(s);
  }

  /** A character the sanitizer drops contributes nothing wherever it stands. */
  lemma DroppedCharVanishes(a: string, c: char, b: string)
    requires c == ByteOrderMark || (c < ' ' && c != '\t' && c != '\n' && c != '\r')
    ensures Sanitized(a + [c] + b) == Sanitized(a) + Sanitized(b)
  {
    var ac := a + [c];
    assert SanitizeChar(c) == [];
    assert ac[..|ac| - 1] == a;
    assert Sanitized(ac) == Sanitized(a);
    SanitizedAppend(ac, b);
  }

  /** A typographic quote becomes its ASCII counterpart wherever it stands. */
  lemma SmartQuoteStraightened(a: string, c: char, b: string)
    requires c in {LeftDoubleQuote, RightDoubleQuote, LeftSingleQuote, RightSingleQuote}
    ensures Sanitized(a + [c] + b)
         == Sanitized(a) + (if c == LeftDoubleQuote || c == RightDoubleQuote then "\"" else "'") + Sanitized(b)
  {
    SanitizedAppend(a + [c], b);
    SanitizedAppend(a, [c]);
    assert [c][..0] == [];
  }

  /** Sanitizing keeps blank text blank. */
  lemma {:induction false} SanitizedBlank(s: string)
    requires IsBlank(s)
    ensures IsBlank(Sanitized(s))
  {
    if s != [] {
      SanitizedBlank(s[..|s| - 1]);
      assert IsWhiteSpace(s[|s| - 1]);
    }
  }

  /** `IsValidJson`: false for blank text without consulting the parser,
      otherwise the verdict of the JSON parser `parses`. */
  function IsValidJson(json: string, parses: string -> bool): (r: bool)
    ensures IsBlank(json) ==> !r
    ensures !IsBlank(json) ==> (r <==> parses(json))
  {
    !IsBlank(json) && parses(json)
  }
}
