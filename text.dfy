/** ASCII case folding, standing in for Java's String.toUpperCase and
    String.equalsIgnoreCase at the two places the game uses them: command
    dispatch and the uniqueness check on room adjectives and furnishings. */
module AsciiText {

  predicate IsLower(c: char) { 'a' <= c <= 'z' }

  predicate IsUpper(c: char) { 'A' <= c <= 'Z' }

  /** Upper-cases an ASCII lower-case letter and leaves every other character alone. */
  function UpperChar(c: char): (u: char)
    ensures !IsLower(u)
    ensures IsLower(c) ==> IsUpper(u) && u as int + 32 == c as int
    ensures !IsLower(c) ==> u == c
  {
    if IsLower(c) then (c as int - 32) as char else c
  }

  /** The lower-case partner of an ASCII upper-case letter. */
  function LowerChar(u: char): (c: char)
    requires IsUpper(u)
    ensures IsLower(c) && UpperChar(c) == u
  {
    (u as int + 32) as char
  }

  /** String.toUpperCase restricted to ASCII: upper-cases character by character. */
  function ToUpper(s: string): (r: string)
    ensures |r| == |s|
    ensures forall i :: 0 <= i < |s| ==> r[i] == UpperChar(s[i])
  {
    if s == [] then [] else [UpperChar(s[0])] + ToUpper(s[1..])
  }

  /** String.equalsIgnoreCase restricted to ASCII: equal lengths, and the
      characters agree pairwise once both are upper-cased. */
  function EqualsIgnoreCase(a: string, b: string): (r: bool)
    ensures r <==> |a| == |b| && forall i :: 0 <= i < |a| ==> UpperChar(a[i]) == UpperChar(b[i])
  {
    |a| == |b| && (a == [] || (UpperChar(a[0]) == UpperChar(b[0]) && EqualsIgnoreCase(a[1..], b[1..])))
  }

  /** Comparing ignoring case is comparing the upper-cased strings. */
  lemma EqualsIgnoreCaseIsUpperEquality(a: string, b: string)
    ensures EqualsIgnoreCase(a, b) <==> ToUpper(a) == ToUpper(b)
  {
    if ToUpper(a) == ToUpper(b) {
      forall i | 0 <= i < |a| ensures UpperChar(a[i]) == UpperChar(b[i]) {
        assert ToUpper(a)[i] == ToUpper(b)[i];
      }
    }
    if EqualsIgnoreCase(a, b) {
      assert forall i :: 0 <= i < |a| ==> ToUpper(a)[i] == ToUpper(b)[i];
    }
  }

  /** EqualsIgnoreCase is an equivalence relation. */
  lemma EqualsIgnoreCaseIsEquivalence()
    ensures forall a :: EqualsIgnoreCase(a, a)
    ensures forall a, b :: EqualsIgnoreCase(a, b) ==> EqualsIgnoreCase(b, a)
    ensures forall a, b, c :: EqualsIgnoreCase(a, b) && EqualsIgnoreCase(b, c) ==> EqualsIgnoreCase(a, c)
  {
  }

  /** A string upper-cases to the single letter u exactly when it is u or
      its lower-case partner. */
  lemma UpperIsLetter(s: string, u: char)
    requires IsUpper(u)
    ensures ToUpper(s) == [u] <==> s == [u] || s == [LowerChar(u)]
  {
    if ToUpper(s) == [u] {
      assert UpperChar(s[0]) == u;
      assert s == [s[0]];
    }
    if s == [u] || s == [LowerChar(u)] {
      assert ToUpper(s) == [ToUpper(s)[0]];
    }
  }
}
