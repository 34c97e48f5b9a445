/**
 * The `java.lang.String` operations the mappers use to compare names, over the
 * ASCII letters: `toLowerCase` and `equalsIgnoreCase`.
 */
module JavaStrings {

  function ToLowerCase(c: char): (r: char)
    ensures 'A' <= c <= 'Z' ==> 'a' <= r <= 'z' && r as int == c as int + 32
    ensures !('A' <= c <= 'Z') ==> r == c
  {
    if 'A' <= c <= 'Z' then (c as int - 'A' as int + 'a' as int) as char else c
  }

  function ToUpperCase(c: char): (r: char)
    ensures 'a' <= c <= 'z' ==> 'A' <= r <= 'Z' && r as int == c as int - 32
    ensures !('a' <= c <= 'z') ==> r == c
  {
    if 'a' <= c <= 'z' then (c as int - 'a' as int + 'A' as int) as char else c
  }

  /** `String.toLowerCase`. */
  function LowerCase(s: string): (r: string)
    ensures |r| == |s|
    ensures forall i :: 0 <= i < |s| ==> r[i] == ToLowerCase(s[i])
  {
    if s == [] then [] else [ToLowerCase(s[0])] + LowerCase(s[1..])
  }

  /** A string that `toLowerCase` leaves as it is. */
  predicate IsLowerCase(s: string) {
    forall i :: 0 <= i < |s| ==> !('A' <= s[i] <= 'Z')
  }

  /**
   * `String.equalsIgnoreCase`: the same length, and every pair of characters is
   * equal, or equal after upper-casing, or equal after lower-casing.
   */
  predicate EqualsIgnoreCase(a: string, b: string) {
    |a| == |b| &&
    forall i :: 0 <= i < |a| ==>
      a[i] == b[i] || ToUpperCase(a[i]) == ToUpperCase(b[i]) || ToLowerCase(a[i]) == ToLowerCase(b[i])
  }

  /** Two characters are equal ignoring case iff they lower-case to the same character. */
  lemma CharsEqualIgnoringCase(x: char, y: char)
    ensures (x == y || ToUpperCase(x) == ToUpperCase(y) || ToLowerCase(x) == ToLowerCase(y))
            <==> ToLowerCase(x) == ToLowerCase(y)
  {
  }

  lemma LowerCaseIsLowerCase(s: string)
    ensures IsLowerCase(LowerCase(s))
    ensures IsLowerCase(s) <==> LowerCase(s) == s
  {
    if IsLowerCase(s) {
      assert forall i :: 0 <= i < |s| ==> LowerCase(s)[i] == s[i];
    }
  }

  /** `toLowerCase` is idempotent. */
  lemma LowerCaseIdempotent(s: string)
    ensures LowerCase(LowerCase(s)) == LowerCase(s)
  {
    LowerCaseIsLowerCase(s);
    LowerCaseIsLowerCase(LowerCase(s));
  }

  /** `a.equalsIgnoreCase(b)` iff the two strings lower-case to the same string. */
  lemma EqualsIgnoreCaseIffLowerCaseEqual(a: string, b: string)
    ensures EqualsIgnoreCase(a, b) <==> LowerCase(a) == LowerCase(b)
  {
    if EqualsIgnoreCase(a, b) {
      forall i | 0 <= i < |a| ensures LowerCase(a)[i] == LowerCase(b)[i] {
        CharsEqualIgnoringCase(a[i], b[i]);
      }
    }
    if LowerCase(a) == LowerCase(b) {
      forall i | 0 <= i < |a|
        ensures a[i] == b[i] || ToUpperCase(a[i]) == ToUpperCase(b[i]) || ToLowerCase(a[i]) == ToLowerCase(b[i])
      {
        assert LowerCase(a)[i] == LowerCase(b)[i];
      }
    }
  }

  /** `equalsIgnoreCase` is an equivalence relation. */
  lemma EqualsIgnoreCaseIsEquivalence(a: string, b: string, c: string)
    ensures EqualsIgnoreCase(a, a)
    ensures EqualsIgnoreCase(a, b) ==> EqualsIgnoreCase(b, a)
    ensures EqualsIgnoreCase(a, b) && EqualsIgnoreCase(b, c) ==> EqualsIgnoreCase(a, c)
  {
    EqualsIgnoreCaseIffLowerCaseEqual(a, a);
    EqualsIgnoreCaseIffLowerCaseEqual(a, b);
    EqualsIgnoreCaseIffLowerCaseEqual(b, a);
    EqualsIgnoreCaseIffLowerCaseEqual(b, c);
    EqualsIgnoreCaseIffLowerCaseEqual(a, c);
  }
}
