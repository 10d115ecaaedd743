/** The two string operations of Foundation that the view models rely on:
    `trimmingCharacters(in: .whitespacesAndNewlines)` and `capitalized`. */
module Text {

  /** Membership in Foundation's `whitespacesAndNewlines` set: the Unicode
      space, line and paragraph separators (general category Z*), the
      control characters U+0009 to U+000D, and NEXT LINE (U+0085). */
  predicate IsWhitespace(c: char) {
    c == ' ' || ('\t' <= c && c <= '\r') || c == '\U{85}' || c == '\U{A0}'
    || c == '\U{1680}' || ('\U{2000}' <= c && c <= '\U{200A}')
    || c == '\U{2028}' || c == '\U{2029}' || c == '\U{202F}'
    || c == '\U{205F}' || c == '\U{3000}'
  }

  /** Number of whitespace characters at the start of `s`. */
  function LeadingWhitespace(s: string): (n: nat)
    ensures n <= |s|
    ensures forall k :: 0 <= k < n ==> IsWhitespace(s[k])
    ensures n < |s| ==> !IsWhitespace(s[n])
  {
    if |s| > 0 && IsWhitespace(s[0]) then 1 + LeadingWhitespace(s[1..]) else 0
  }

  /** Number of whitespace characters at the end of `s`. */
  function TrailingWhitespace(s: string): (n: nat)
    ensures n <= |s|
    ensures forall k :: |s| - n <= k < |s| ==> IsWhitespace(s[k])
    ensures n < |s| ==> !IsWhitespace(s[|s| - 1 - n])
  {
    if |s| > 0 && IsWhitespace(s[|s| - 1]) then 1 + TrailingWhitespace(s[..|s| - 1]) else 0
  }

  /** `s.trimmingCharacters(in: .whitespacesAndNewlines)`: the text between
      the leading and the trailing whitespace. It is empty exactly when `s`
      is blank, and it neither starts nor ends with whitespace. */
  function Trim(s: string): (r: string)
    ensures r == [] <==> forall k :: 0 <= k < |s| ==> IsWhitespace(s[k])
    ensures r != [] ==> !IsWhitespace(r[0]) && !IsWhitespace(r[|r| - 1])
  {
    var i := LeadingWhitespace(s);
    if i == |s| then [] else s[i..|s| - TrailingWhitespace(s)]
  }

  /** Trimming removes only whitespace: the trimmed text is the part of `s`
      after its leading whitespace, and it keeps every non-whitespace
      character of `s`. */
  lemma TrimKeepsText(s: string)
    ensures LeadingWhitespace(s) + |Trim(s)| <= |s|
    ensures Trim(s) == s[LeadingWhitespace(s)..LeadingWhitespace(s) + |Trim(s)|]
    ensures forall k :: 0 <= k < |s| && !IsWhitespace(s[k]) ==>
              LeadingWhitespace(s) <= k < LeadingWhitespace(s) + |Trim(s)|
  {
  }

  /** Trimming an already trimmed text changes nothing. */
  lemma TrimIdempotent(s: string)
    ensures Trim(Trim(s)) == Trim(s)
  {
  }

  /** Upper-case mapping of ASCII letters; every other character is kept. */
  function ToUpper(c: char): (u: char)
    ensures IsWhitespace(u) <==> IsWhitespace(c)
  {
    if 'a' <= c && c <= 'z' then (c as int - 32) as char else c
  }

  /** Lower-case mapping of ASCII letters; every other character is kept. */
  function ToLower(c: char): (l: char)
    ensures IsWhitespace(l) <==> IsWhitespace(c)
  {
    if 'A' <= c && c <= 'Z' then (c as int + 32) as char else c
  }

  /** Whether position `k` of `s` starts a word: the first position when the
      text itself starts at a word boundary, or a position after whitespace. */
  predicate StartsWord(s: string, k: nat, atWordStart: bool)
    requires k < |s|
  {
    if k == 0 then atWordStart else IsWhitespace(s[k - 1])
  }

  /** The character `capitalized` puts at position `k`: whitespace is kept,
      the first letter of a word is upper-cased, every other one lower-cased. */
  function CapitalizedAt(s: string, k: nat, atWordStart: bool): char
    requires k < |s|
  {
    if IsWhitespace(s[k]) then s[k]
    else if StartsWord(s, k, atWordStart) then ToUpper(s[k])
    else ToLower(s[k])
  }

  /** Capitalizes `s`, where `atWordStart` says whether the character before
      `s` (if any) ended a word. */
  function CapitalizeWords(s: string, atWordStart: bool): (r: string)
    ensures |r| == |s|
    ensures forall k :: 0 <= k < |s| ==> r[k] == CapitalizedAt(s, k, atWordStart)
  {
    if s == [] then []
    else
      var rest := CapitalizeWords(s[1..], IsWhitespace(s[0]));
      assert forall k :: 1 <= k < |s| ==> rest[k - 1] == CapitalizedAt(s, k, atWordStart) by {
        forall k | 1 <= k < |s| ensures rest[k - 1] == CapitalizedAt(s, k, atWordStart) {
          assert s[1..][k - 1] == s[k];
          assert StartsWord(s[1..], k - 1, IsWhitespace(s[0])) == StartsWord(s, k, atWordStart);
        }
      }
      [CapitalizedAt(s, 0, atWordStart)] + rest
  }

  /** `s.capitalized`: every word starts with an upper-case letter and goes
      on in lower case; the length and every whitespace position are kept. */
  function Capitalized(s: string): (r: string)
    ensures |r| == |s|
    ensures forall k :: 0 <= k < |s| ==> r[k] == CapitalizedAt(s, k, true)
    ensures forall k :: 0 <= k < |s| ==> (IsWhitespace(r[k]) <==> IsWhitespace(s[k]))
  {
    CapitalizeWords(s, true)
  }

  /** Capitalizing neither creates nor removes a blank text: an identifier
      trims to empty exactly when its capitalized form does. */
  lemma CapitalizedBlank(s: string)
    ensures Trim(Capitalized(s)) == [] <==> Trim(s) == []
  {
  }

  /** The identifier of the classification test becomes "Happy Dog". */
  lemma CapitalizedHappyDog()
    ensures Capitalized("happy dog") == "Happy Dog"
  {
  }

  /** Whitespace padding around a text that neither starts nor ends with
      whitespace is exactly what trimming removes. */
  lemma TrimPadded(before: string, text: string, after: string)
    requires forall k :: 0 <= k < |before| ==> IsWhitespace(before[k])
    requires forall k :: 0 <= k < |after| ==> IsWhitespace(after[k])
    requires text != [] && !IsWhitespace(text[0]) && !IsWhitespace(text[|text| - 1])
    ensures Trim(before + text + after) == text
  {
    var s := before + text + after;
    var i := LeadingWhitespace(s);
    var r := Trim(s);
    TrimKeepsText(s);
    assert s[|before|] == text[0];
    assert i == |before|;
    assert s[|before| + |text| - 1] == text[|text| - 1];
    assert |r| >= |text|;
    assert s[i..i + |text|] == text;
  }

  /** The padded input of the sentiment test trims to "Needs improvement".
      The input is a parameter fixed by the precondition, so that the proof
      goes through `TrimPadded` instead of unrolling `Trim` on the literal. */
  lemma TrimNeedsImprovement(s: string)
    requires s == "   " + "Needs improvement" + "   "
    ensures Trim(s) == "Needs improvement"
  {
    TrimPadded("   ", "Needs improvement", "   ");
  }
}
