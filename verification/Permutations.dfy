/** Taking one element out of a permutation: the step of every proof that an order does not matter. */
module Permutations {
  lemma TakeOut<T>(s: seq<T>, t: seq<T>) returns (a: seq<T>, b: seq<T>)
    requires s != [] && multiset(s) == multiset(t)
    ensures t == a + [s[0]] + b && multiset(a + b) == multiset(s[1..])
  {
    assert s == [s[0]] + s[1..];
    assert s[0] in multiset(t);
    var k :| 0 <= k < |t| && t[k] == s[0];
    a, b := t[..k], t[k + 1..];
    assert t == a + [s[0]] + b;
    assert multiset(t) == multiset(a) + multiset{s[0]} + multiset(b);
    assert multiset(s) == multiset{s[0]} + multiset(s[1..]);
    assert multiset(a + b) == multiset(t) - multiset{s[0]};
    assert multiset(s[1..]) == multiset(s) - multiset{s[0]};
  }

  lemma SameSize<T>(s: seq<T>, t: seq<T>)
    requires multiset(s) == multiset(t)
    ensures |s| == |t|
  {
    assert |multiset(s)| == |s| && |multiset(t)| == |t|;
  }
}
