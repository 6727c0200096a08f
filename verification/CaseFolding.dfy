/**
 * The two string operations of java.lang.String that the join command and
 * the damage handler rely on: toLowerCase() and equalsIgnoreCase().
 * Case mapping is modelled on the ASCII letters only.
 */
module CaseFolding {

  /** Character.toLowerCase restricted to ASCII. */
  function LowerChar(c: char): char {
    if 'A' <= c <= 'Z' then (c as int + 32) as char else c
  }

  /** Character.toUpperCase restricted to ASCII. */
  function UpperChar(c: char): char {
    if 'a' <= c <= 'z' then (c as int - 32) as char else c
  }

  /** String.toLowerCase: every character lowered, length kept. */
  function Lower(s: string): (r: string)
    ensures |r| == |s|
    ensures forall i :: 0 <= i < |s| ==> r[i] == LowerChar(s[i])
  {
    if s == [] then [] else [LowerChar(s[0])] + Lower(s[1..])
  }

  /**
   * The per-character test of String.equalsIgnoreCase (via regionMatches):
   * equal, or equal once upper-cased, or equal once upper- then lower-cased.
   */
  predicate CharsMatchIgnoringCase(a: char, b: char) {
    a == b || UpperChar(a) == UpperChar(b) || LowerChar(UpperChar(a)) == LowerChar(UpperChar(b))
  }

  /**
   * String.equalsIgnoreCase: same length and every position matches ignoring
   * case; that is exactly equality of the two lowered strings.
   */
  function EqualsIgnoreCase(a: string, b: string): (r: bool)
    ensures r ==> |a| == |b|
    ensures r <==> Lower(a) == Lower(b)
  {
    MatchingIffLowerEqual(a, b);
    |a| == |b| && forall i :: 0 <= i < |a| ==> CharsMatchIgnoringCase(a[i], b[i])
  }

  /** Position-wise matching ignoring case is equality of the lowered strings. */
  lemma MatchingIffLowerEqual(a: string, b: string)
    ensures (|a| == |b| && forall i :: 0 <= i < |a| ==> CharsMatchIgnoringCase(a[i], b[i]))
            <==> Lower(a) == Lower(b)
  {
    if |a| == |b| {
      forall i | 0 <= i < |a|
        ensures CharsMatchIgnoringCase(a[i], b[i]) <==> Lower(a)[i] == Lower(b)[i]
      {
        CharsMatchIffLowerEqual(a[i], b[i]);
      }
    } else {
      assert |Lower(a)| != |Lower(b)|;
    }
  }

  /** Lowering twice is lowering once: a mode lowered by the caller and again by the scan is lowered once. */
  lemma LowerIdempotent(s: string)
    ensures Lower(Lower(s)) == Lower(s)
  {
  }

  /** The three-way character test of equalsIgnoreCase agrees with comparing lowered characters. */
  lemma CharsMatchIffLowerEqual(a: char, b: char)
    ensures CharsMatchIgnoringCase(a, b) <==> LowerChar(a) == LowerChar(b)
  {
  }
}
