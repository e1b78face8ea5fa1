/** The two `java.lang.String` queries the search path relies on. */
module Text {

  /** `p` occurs in `s` starting at index `i`. */
  predicate OccursAt(s: string, p: string, i: int)
  {
    0 <= i && i + |p| <= |s| && s[i..i + |p|] == p
  }

  lemma OccursShift(s: string, p: string, j: int)
    requires |s| > 0 && j >= 1
    ensures OccursAt(s, p, j) <==> OccursAt(s[1..], p, j - 1)
  {
    if j + |p| <= |s| {
      assert s[1..][j - 1..j - 1 + |p|] == s[j..j + |p|];
    }
  }

  /** `String.indexOf(p)`: the first index where `p` occurs in `s`, or -1 when it does not occur. */
  function IndexOf(s: string, p: string): (r: int)
    ensures r == -1 || OccursAt(s, p, r)
    ensures r >= 0 ==> forall j :: 0 <= j < r ==> !OccursAt(s, p, j)
    ensures r == -1 ==> forall j :: !OccursAt(s, p, j)
    decreases |s|
  {
    if |s| < |p| then -1
    else if s[..|p|] == p then 0
    else
      var r := IndexOf(s[1..], p);
      assert forall j {:trigger OccursAt(s, p, j)} :: j >= 1 ==> (OccursAt(s, p, j) <==> OccursAt(s[1..], p, j - 1)) by {
        forall j | j >= 1 { OccursShift(s, p, j); }
      }
      if r < 0 then -1 else r + 1
  }

  /** `String.contains(p)`, which Java defines as `indexOf(p) > -1`. */
  function Contains(s: string, p: string): (b: bool)
    ensures b <==> exists j :: OccursAt(s, p, j)
  {
    IndexOf(s, p) >= 0
  }

  /** Searching for a one-character string is searching for that character. */
  lemma ContainsChar(s: string, c: char)
    ensures Contains(s, [c]) <==> c in s
  {
    if c in s {
      var i :| 0 <= i < |s| && s[i] == c;
      assert s[i..i + 1] == [c];
      assert OccursAt(s, [c], i);
    }
    if Contains(s, [c]) {
      var j :| OccursAt(s, [c], j);
      assert s[j] == s[j..j + 1][0] == c;
    }
  }
}
