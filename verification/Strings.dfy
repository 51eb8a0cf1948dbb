/** Searching and replacing in strings. */
module Strings {
  predicate HasPrefix(s: string, prefix: string) { |prefix| <= |s| && s[..|prefix|] == prefix }

  /** Non-overlapping replacement, from the left. */
  function ReplaceAll(s: string, what: string, with: string): string
    requires what != []
    decreases |s|
  {
    if |s| < |what| then s
    else if s[..|what|] == what then with + ReplaceAll(s[|what|..], what, with)
    else [s[0]] + ReplaceAll(s[1..], what, with)
  }

  /** Where `what` first occurs; negative when it does not. */
  function Find(s: string, what: string): (i: int)
    ensures i < 0 ==> forall k | 0 <= k <= |s| :: !HasPrefix(s[k..], what)
    ensures 0 <= i ==> i <= |s| && HasPrefix(s[i..], what) && forall k | 0 <= k < i :: !HasPrefix(s[k..], what)
  {
    if HasPrefix(s, what) then (assert s[0..] == s; 0)
    else if s == [] then -1
    else
      var i := Find(s[1..], what);
      assert forall k | 1 <= k <= |s| :: s[k..] == s[1..][k - 1..];
      if i < 0 then (assert s[0..] == s; -1) else i + 1
  }

  predicate Contains(s: string, what: string) { Find(s, what) >= 0 }
}
