/**
  Numeric input normalizer: the tolerant text-to-number reading the calculator
  applies to every input field (`parseDoubleSafe` in MainActivity.kt).

  The platform's own number grammar (Kotlin `String.toDouble`) is not modelled;
  it is the parameter `tryParse`, which yields `None` wherever the platform
  routine throws.
*/
module Normalizer {
  import opened Wrappers

  /** Kotlin `Char.isWhitespace`: Java's `isWhitespace` (the ASCII controls
      TAB..CR and FS..US) or `isSpaceChar` (Unicode categories Zs, Zl, Zp). */
  predicate IsWhitespace(c: char) {
    || ('\U{9}' <= c <= '\U{D}')
    || ('\U{1C}' <= c <= '\U{1F}')
    || c == ' '
    || c == '\U{A0}'
    || c == '\U{1680}'
    || ('\U{2000}' <= c <= '\U{200A}')
    || c == '\U{2028}'
    || c == '\U{2029}'
    || c == '\U{202F}'
    || c == '\U{205F}'
    || c == '\U{3000}'
  }

  /** Kotlin `CharSequence.isBlank`: every character is whitespace (so "" is blank). */
  predicate IsBlank(s: string) {
    forall i :: 0 <= i < |s| ==> IsWhitespace(s[i])
  }

  /** The usual whitespace characters are whitespace; the zero-width space and
      the byte-order mark (Unicode category Cf) are not. */
  lemma WhitespaceExamples()
    ensures IsWhitespace(' ') && IsWhitespace('\t') && IsWhitespace('\n')
    ensures IsWhitespace('\U{A0}') && IsWhitespace('\U{3000}')
    ensures !IsWhitespace('\U{200B}') && !IsWhitespace('\U{FEFF}')
  {
  }

  /** No character of a number is whitespace: a text holding a digit, a
      decimal separator or a sign is never blank. */
  lemma NumeralIsNotBlank(s: string, i: nat)
    requires i < |s|
    requires '0' <= s[i] <= '9' || IsSeparator(s[i]) || s[i] == '-' || s[i] == '+'
    ensures !IsBlank(s)
  {
    assert !IsWhitespace(s[i]);
  }

  /** The empty text and whitespace-only text are blank; a manual section
      such as "120" or " 1,5 " is not. */
  lemma BlankExamples()
    ensures IsBlank("") && IsBlank(" \t\n") && IsBlank("\U{A0}\U{3000}")
    ensures !IsBlank("120") && !IsBlank(" 1,5 ")
  {
    NumeralIsNotBlank("120", 0);
    NumeralIsNotBlank(" 1,5 ", 1);
  }

  /** The two decimal separators the calculator accepts. */
  predicate IsSeparator(c: char) {
    c == ',' || c == '.'
  }

  /** `s.replace(',', '.')`: every comma becomes a dot, nothing else changes. */
  function ReplaceCommas(s: string): (r: string)
    ensures |r| == |s|
    ensures forall i :: 0 <= i < |s| ==> r[i] == (if s[i] == ',' then '.' else s[i])
    ensures ',' !in r
  {
    if s == [] then []
    else [if s[0] == ',' then '.' else s[0]] + ReplaceCommas(s[1..])
  }

  /** `parseDoubleSafe(s, default)`: the platform reading of `s` with commas
      turned into dots, or `fallback` whenever the platform rejects the text. */
  function ParseDoubleSafe(s: string, fallback: real, tryParse: string -> Option<real>): (r: real)
    ensures tryParse(ReplaceCommas(s)).Some? ==> r == tryParse(ReplaceCommas(s)).value
    ensures tryParse(ReplaceCommas(s)) == None ==> r == fallback
    ensures r != fallback ==> tryParse(ReplaceCommas(s)) == Some(r)
  {
    match tryParse(ReplaceCommas(s))
    case Some(v) => v
    case None => fallback
  }

  /** Normalising twice is normalising once. */
  lemma {:induction false} ReplaceCommasIdempotent(s: string)
    ensures ReplaceCommas(ReplaceCommas(s)) == ReplaceCommas(s)
  {
    if s != [] {
      ReplaceCommasIdempotent(s[1..]);
    }
  }

  /** Text without commas is left as it is. */
  lemma {:induction false} ReplaceCommasCommaFree(s: string)
    requires ',' !in s
    ensures ReplaceCommas(s) == s
  {
    if s != [] {
      assert s[0] != ',';
      ReplaceCommasCommaFree(s[1..]);
    }
  }

  /** Comma-free text reads exactly as the platform parser reads it. */
  lemma ParseCommaFree(s: string, tryParse: string -> Option<real>)
    requires ',' !in s
    ensures ParseDoubleSafe(s, 0.0, tryParse) == (if tryParse(s).Some? then tryParse(s).value else 0.0)
  {
    ReplaceCommasCommaFree(s);
  }

  /** Two texts that differ only in which decimal separator they use are
      normalised to the same text. */
  lemma {:induction false} ReplaceCommasSeparatorBlind(s: string, t: string)
    requires |s| == |t|
    requires forall i :: 0 <= i < |s| ==> s[i] == t[i] || (IsSeparator(s[i]) && IsSeparator(t[i]))
    ensures ReplaceCommas(s) == ReplaceCommas(t)
  {
    if s != [] {
      assert s[0] == t[0] || (IsSeparator(s[0]) && IsSeparator(t[0]));
      ReplaceCommasSeparatorBlind(s[1..], t[1..]);
    }
  }

  /** ',' and '.' are interchangeable: "1,25" and "1.25" read the same,
      whatever the platform parser does. */
  lemma SeparatorInsensitive(s: string, t: string, fallback: real, tryParse: string -> Option<real>)
    requires |s| == |t|
    requires forall i :: 0 <= i < |s| ==> s[i] == t[i] || (IsSeparator(s[i]) && IsSeparator(t[i]))
    ensures ParseDoubleSafe(s, fallback, tryParse) == ParseDoubleSafe(t, fallback, tryParse)
  {
    ReplaceCommasSeparatorBlind(s, t);
  }

  /** Reading already-normalised text gives the same value: normalisation is
      invisible to the caller. */
  lemma ParseOfNormalised(s: string, fallback: real, tryParse: string -> Option<real>)
    ensures ParseDoubleSafe(ReplaceCommas(s), fallback, tryParse) == ParseDoubleSafe(s, fallback, tryParse)
  {
    ReplaceCommasIdempotent(s);
  }

  /** The worked example: "1,25" reads as 1.25 for any parser that reads "1.25"
      as 1.25; text the parser rejects (such as "abc") reads as the fallback. */
  lemma ParseExamples(tryParse: string -> Option<real>)
    requires tryParse("1.25") == Some(1.25)
    requires tryParse("abc") == None
    ensures ParseDoubleSafe("1,25", 0.0, tryParse) == 1.25
    ensures ParseDoubleSafe("1.25", 0.0, tryParse) == 1.25
    ensures ParseDoubleSafe("abc", 5.0, tryParse) == 5.0
  {
    assert ReplaceCommas("1,25") == "1.25";
    assert ReplaceCommas("1.25") == "1.25";
    assert ReplaceCommas("abc") == "abc";
  }
}
