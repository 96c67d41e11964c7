/** Substring search on identifiers, the meaning of Swift's
    `String.contains(_:)` as the input-source rules use it. */
module Strings {

  /** `frag` occurs in `s` starting at index `i`. */
  ghost predicate OccursAt(s: string, frag: string, i: nat) {
    i + |frag| <= |s| && s[i..i + |frag|] == frag
  }

  /** `frag` is a substring of `s`: tries each starting position from the left. */
  function Contains(s: string, frag: string): (r: bool)
    ensures r <==> exists i: nat :: OccursAt(s, frag, i)
    decreases |s|
  {
    if |s| < |frag| then
      NoOccurrenceInShort(s, frag);
      false
    else if s[..|frag|] == frag then
      assert OccursAt(s, frag, 0);
      true
    else
      OccursInTail(s, frag);
      Contains(s[1..], frag)
  }

  lemma NoOccurrenceInShort(s: string, frag: string)
    requires |s| < |frag|
    ensures !exists i: nat :: OccursAt(s, frag, i)
  {
  }

  /** When `frag` does not start `s`, it occurs in `s` iff it occurs in `s[1..]`. */
  lemma OccursInTail(s: string, frag: string)
    requires |frag| <= |s| && s[..|frag|] != frag
    ensures (exists i: nat :: OccursAt(s[1..], frag, i)) <==> (exists i: nat :: OccursAt(s, frag, i))
  {
    if i: nat :| OccursAt(s, frag, i) {
      assert i != 0;
      assert s[1..][i - 1..i - 1 + |frag|] == s[i..i + |frag|];
      assert OccursAt(s[1..], frag, i - 1);
    }
    if i: nat :| OccursAt(s[1..], frag, i) {
      assert s[1..][i..i + |frag|] == s[i + 1..i + 1 + |frag|];
      assert OccursAt(s, frag, i + 1);
    }
  }

  /** Being a substring is transitive. */
  lemma ContainsTransitive(s: string, mid: string, frag: string)
    requires Contains(s, mid) && Contains(mid, frag)
    ensures Contains(s, frag)
  {
    var i: nat :| OccursAt(s, mid, i);
    var j: nat :| OccursAt(mid, frag, j);
    assert mid == s[i..i + |mid|];
    forall k | 0 <= k < |frag|
      ensures s[i + j..i + j + |frag|][k] == frag[k]
    {
      assert frag[k] == mid[j..j + |frag|][k] == mid[j + k];
    }
    assert OccursAt(s, frag, i + j);
  }

  /** Some fragment of `frags` is a substring of `s`: Swift's
      `frags.contains { s.contains($0) }`, tried in list order. */
  function ContainsAny(s: string, frags: seq<string>): (r: bool)
    ensures r <==> exists k :: 0 <= k < |frags| && Contains(s, frags[k])
  {
    if |frags| == 0 then false
    else if Contains(s, frags[0]) then true
    else
      assert forall k :: 1 <= k < |frags| ==> frags[k] == frags[1..][k - 1];
      ContainsAny(s, frags[1..])
  }
}
