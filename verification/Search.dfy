/** Searching a text for a character; the length of the text stands for `npos`. */
module Search {

  predicate Without(s: string, c: char) {
    forall i :: 0 <= i < |s| ==> s[i] != c
  }

  /** `find_first_of` */
  function FindFirst(s: string, c: char): (k: nat)
    ensures k <= |s| && (k < |s| ==> s[k] == c)
    ensures forall i :: 0 <= i < k ==> s[i] != c
  {
    if s == "" || s[0] == c then 0 else FindFirst(s[1..], c) + 1
  }

  /** `find_last_of` */
  function FindLast(s: string, c: char): (k: nat)
    ensures k <= |s| && (k < |s| ==> s[k] == c)
    ensures forall i :: (if k < |s| then k + 1 else 0) <= i < |s| ==> s[i] != c
  {
    if s == "" then 0
    else if s[|s| - 1] == c then |s| - 1
    else
      var k := FindLast(s[..|s| - 1], c);
      if k == |s| - 1 then |s| else k
  }

  /** The first occurrence is the one with none before it. */
  lemma FirstIs(s: string, c: char, k: nat)
    requires k <= |s| && (k < |s| ==> s[k] == c) && Without(s[..k], c)
    ensures FindFirst(s, c) == k
  {
    assert forall i :: 0 <= i < k ==> s[i] == s[..k][i];
  }

  /** The last occurrence is the one with none after it. */
  lemma LastIs(s: string, c: char, k: nat)
    requires k < |s| && s[k] == c && Without(s[k + 1..], c)
    ensures FindLast(s, c) == k
  {
    assert forall i :: k < i < |s| ==> s[i] == s[k + 1..][i - k - 1];
  }
}
