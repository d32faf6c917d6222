/** Character classes and ASCII case-insensitive matching, as the server's
    regular expressions use them. */
module Text {

  /** `[0-9a-fA-F]`, equivalently `[a-f0-9]` under the `i` flag. */
  predicate IsHexDigit(c: char) {
    ('0' <= c <= '9') || ('a' <= c <= 'f') || ('A' <= c <= 'F')
  }

  /** Every character of `s` is a hexadecimal digit. */
  function AllHex(s: string): (b: bool)
    ensures b <==> forall i :: 0 <= i < |s| ==> IsHexDigit(s[i])
  {
    if s == [] then true else IsHexDigit(s[0]) && AllHex(s[1..])
  }

  /** Case folding of the `i` flag, restricted to ASCII letters; no other
      character folds onto an ASCII letter, so it suffices for ASCII patterns. */
  function LowerAscii(c: char): (d: char)
    ensures 'A' <= c <= 'Z' ==> 'a' <= d <= 'z' && d as int == c as int + 32
    ensures !('A' <= c <= 'Z') ==> d == c
  {
    if 'A' <= c <= 'Z' then (c as int + 32) as char else c
  }

  /** `a` is the lower-case pattern `p` up to the case of its letters. */
  predicate FoldsTo(a: string, p: string) {
    |a| == |p| && forall j :: 0 <= j < |a| ==> LowerAscii(a[j]) == p[j]
  }

  /** The lower-case pattern `p` occurs in `s` at offset `k`, ignoring the case of `s`. */
  predicate OccursAt(s: string, p: string, k: nat)
    requires k + |p| <= |s|
  {
    FoldsTo(s[k..k + |p|], p)
  }

  /** Whether the lower-case pattern `p` occurs anywhere in `s`, ignoring case. */
  function ContainsFolded(s: string, p: string): (b: bool)
    ensures b <==> exists k: nat :: k + |p| <= |s| && OccursAt(s, p, k)
    decreases |s|
  {
    if |s| < |p| then false
    else if OccursAt(s, p, 0) then true
    else
      var rest := ContainsFolded(s[1..], p);
      ShiftOccurrence(s, p, rest);
      rest
  }

  /** With no occurrence at offset 0, `s` contains `p` exactly when `s[1..]` does. */
  lemma ShiftOccurrence(s: string, p: string, rest: bool)
    requires |p| <= |s| && !OccursAt(s, p, 0)
    requires rest <==> exists k: nat :: k + |p| <= |s| - 1 && OccursAt(s[1..], p, k)
    ensures rest <==> exists k: nat :: k + |p| <= |s| && OccursAt(s, p, k)
  {
    if rest {
      var k: nat :| k + |p| <= |s| - 1 && OccursAt(s[1..], p, k);
      assert s[1..][k..k + |p|] == s[k + 1..k + 1 + |p|];
      assert OccursAt(s, p, k + 1);
    }
    if k: nat :| k + |p| <= |s| && OccursAt(s, p, k) {
      assert k != 0;
      assert s[1..][k - 1..k - 1 + |p|] == s[k..k + |p|];
      assert OccursAt(s[1..], p, k - 1);
    }
  }
}
