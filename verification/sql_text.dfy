/**
 * Character-level facts about SQL text: how often a character occurs,
 * Python's `str.join`, and fixed text that holds no placeholder marker.
 */
module SqlText {

  /** The number of occurrences of `c` in `s`. */
  function Count(s: string, c: char): (n: nat)
    ensures n <= |s|
  {
    if s == [] then 0 else (if s[0] == c then 1 else 0) + Count(s[1..], c)
  }

  /** Occurrences of a character add up over concatenation. */
  lemma {:induction false} CountAppend(a: string, b: string, c: char)
    ensures Count(a + b, c) == Count(a, c) + Count(b, c)
  {
    if a == [] {
      assert a + b == b;
    } else {
      assert (a + b)[1..] == a[1..] + b;
      CountAppend(a[1..], b, c);
    }
  }

  /**
   * The characters that open a parameter slot for the two database drivers:
   * `?` (sqlite3, "qmark" style) and `%` (psycopg2, "format" style).
   */
  predicate IsMarker(ch: char) {
    ch == '?' || ch == '%'
  }

  /** Fixed SQL words: text in which no character opens a parameter slot. */
  predicate Unmarked(s: string) {
    forall i | 0 <= i < |s| :: !IsMarker(s[i])
  }

  /** Fixed words followed by fixed words are fixed words. */
  lemma UnmarkedAppend(a: string, b: string)
    requires Unmarked(a) && Unmarked(b)
    ensures Unmarked(a + b)
  {
    forall i | 0 <= i < |a + b| ensures !IsMarker((a + b)[i]) {
      if i < |a| {
        assert (a + b)[i] == a[i];
      } else {
        assert (a + b)[i] == b[i - |a|];
      }
    }
  }

  /** Unmarked text is exactly the text in which neither marker occurs. */
  lemma {:induction false} UnmarkedIffNoMarker(s: string)
    ensures Unmarked(s) <==> Count(s, '?') == 0 && Count(s, '%') == 0
  {
    if s != [] {
      UnmarkedIffNoMarker(s[1..]);
      assert forall i | 1 <= i < |s| :: s[i] == s[1..][i - 1];
    }
  }

  /** Python's `sep.join(parts)`. */
  function Join(sep: string, parts: seq<string>): string
  {
    if |parts| == 0 then ""
    else if |parts| == 1 then parts[0]
    else parts[0] + sep + Join(sep, parts[1..])
  }

  /**
   * Joining with a separator that lacks `c` parts that each hold `c` exactly
   * once gives text holding `c` once per part.
   */
  lemma {:induction false} CountJoin(sep: string, parts: seq<string>, c: char)
    requires Count(sep, c) == 0
    requires forall k | 0 <= k < |parts| :: Count(parts[k], c) == 1
    ensures Count(Join(sep, parts), c) == |parts|
  {
    if |parts| > 1 {
      CountJoin(sep, parts[1..], c);
      CountAppend(parts[0], sep, c);
      CountAppend(parts[0] + sep, Join(sep, parts[1..]), c);
    }
  }

  /** Appending one more part to a join adds the separator and the part. */
  lemma {:induction false} JoinSnoc(sep: string, parts: seq<string>, last: string)
    requires |parts| >= 1
    ensures Join(sep, parts + [last]) == Join(sep, parts) + sep + last
  {
    if |parts| > 1 {
      assert (parts + [last])[1..] == parts[1..] + [last];
      JoinSnoc(sep, parts[1..], last);
    }
  }
}
