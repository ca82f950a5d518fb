/** The few functions of Go's `strings` package the library uses, for a
    cut set of a single character. */
module Text {
  predicate HasPrefix(s: string, p: string)
  {
    |p| <= |s| && s[..|p|] == p
  }

  /** `strings.TrimPrefix(s, p)`. */
  function TrimPrefix(s: string, p: string): (r: string)
    ensures HasPrefix(s, p) ==> p + r == s
    ensures !HasPrefix(s, p) ==> r == s
  {
    if HasPrefix(s, p) then
      assert s == s[..|p|] + s[|p|..];
      s[|p|..]
    else s
  }

  /** `strings.TrimLeft(s, string(c))`: every leading `c` is dropped. */
  function TrimLeft(s: string, c: char): (r: string)
    ensures |r| <= |s| && r == s[|s| - |r|..]
    ensures forall i | 0 <= i < |s| - |r| :: s[i] == c
    ensures |r| == 0 || r[0] != c
    decreases |s|
  {
    if |s| > 0 && s[0] == c then TrimLeft(s[1..], c) else s
  }

  /** `strings.TrimRight(s, string(c))`: every trailing `c` is dropped. */
  function TrimRight(s: string, c: char): (r: string)
    ensures |r| <= |s| && r == s[..|r|]
    ensures forall i | |r| <= i < |s| :: s[i] == c
    ensures |r| == 0 || r[|r| - 1] != c
    decreases |s|
  {
    if |s| > 0 && s[|s| - 1] == c then TrimRight(s[..|s| - 1], c) else s
  }

  /** Trimming twice trims nothing more. */
  lemma TrimRightIdempotent(s: string, c: char)
    ensures TrimRight(TrimRight(s, c), c) == TrimRight(s, c)
  {
  }
}
