/** Hashes are opaque functions; what is assumed of them is injectivity. */
module Hashing {
  import opened Basics

  ghost predicate Injective(hash: Bytes -> Bytes) {
    forall a, b :: hash(a) == hash(b) ==> a == b
  }

  predicate NulFree(s: Bytes) { forall i :: 0 <= i < |s| ==> s[i] != 0 }

  /** A NUL after a NUL-free prefix tells where the prefix ends. */
  lemma SplitAtNul(p: Bytes, c: Bytes, p': Bytes, c': Bytes)
    requires NulFree(p) && NulFree(p')
    requires p + [0] + c == p' + [0] + c'
    ensures p == p' && c == c'
  {
    var s := p + [0] + c;
    assert s == p' + [0] + c';
    PrefixNotLonger(p, c, p', c');
    PrefixNotLonger(p', c', p, c);
    assert p == s[..|p|] && p' == s[..|p'|];
    assert c == s[|p| + 1..] && c' == s[|p'| + 1..];
  }

  lemma PrefixNotLonger(p: Bytes, c: Bytes, p': Bytes, c': Bytes)
    requires NulFree(p')
    requires p + [0] + c == p' + [0] + c'
    ensures |p'| <= |p|
  {
    var s := p' + [0] + c';
    assert s[|p|] == 0;
    assert forall i :: 0 <= i < |p'| ==> s[i] == p'[i];
  }
}
