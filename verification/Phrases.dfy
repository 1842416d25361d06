/** The pure parts of the confirmation layer: phrase tests and the canonical form of an email set. */
module Phrases {
  import opened Timestamps

  predicate IsSpace(c: char) { c == ' ' || c == '\t' || c == '\n' || c == '\r' }

  predicate IsEdge(c: char) { c == '.' || c == '!' || c == '?' || c == '"' || c == '\'' || c == ' ' }

  function Strip(text: string, cut: char -> bool): string {
    if text != "" && cut(text[0]) then Strip(text[1..], cut)
    else if text != "" && cut(text[|text| - 1]) then Strip(text[..|text| - 1], cut)
    else text
  }

  function Lower(c: char): char { if 'A' <= c <= 'Z' then c - 'A' + 'a' else c }

  /** `_normalize_phrase` */
  function Normalize(text: string): string {
    var t := Strip(Strip(text, IsSpace), IsEdge);
    seq(|t|, i requires 0 <= i < |t| => Lower(t[i]))
  }

  predicate IsEscalation(text: string) {
    var t := Normalize(text);
    t == "yes, escalate" || t == "yes escalate" || t == "escalate"
  }

  predicate IsGrantApproval(text: string) {
    var t := Normalize(text);
    t == "yes" || t == "yes, approve" || t == "yes approve" || t == "approve" || t == "approved" ||
    t == "confirm" || t == "go ahead"
  }

  // ----- `_canonical_email_ids` -----

  predicate TextAtMost(a: string, b: string) { !TextLess(b, a) }

  function Insert(x: string, s: seq<string>): (r: seq<string>)
    ensures multiset(r) == multiset(s) + multiset{x}
  {
    if s == [] then [x]
    else if TextAtMost(x, s[0]) then [x] + s
    else
      assert s == [s[0]] + s[1..];
      [s[0]] + Insert(x, s[1..])
  }

  function Canonical(ids: seq<string>): (r: seq<string>)
    ensures multiset(r) == multiset(ids)
    ensures |r| == |ids|
  {
    if ids == [] then []
    else
      assert ids == [ids[0]] + ids[1..];
      var r := Insert(ids[0], Canonical(ids[1..]));
      assert |multiset(r)| == |multiset(ids)|;
      r
  }

  predicate IsSorted(s: seq<string>) {
    forall i, j | 0 <= i < j < |s| :: TextAtMost(s[i], s[j])
  }

  lemma {:induction false} Total(a: string, b: string)
    ensures TextLess(a, b) || a == b || TextLess(b, a)
    ensures !(TextLess(a, b) && TextLess(b, a)) && !TextLess(a, a)
  {
    if a != "" && b != "" && a[0] == b[0] {
      Total(a[1..], b[1..]);
      if a[1..] == b[1..] { assert a == [a[0]] + a[1..] && b == [b[0]] + b[1..]; }
    }
    if a != "" { Total(a[1..], a[1..]); }
  }

  lemma {:induction false} Transitive(a: string, b: string, c: string)
    requires TextAtMost(a, b) && TextAtMost(b, c)
    ensures TextAtMost(a, c)
  {
    if a != "" && c != "" && b != "" && a[0] == b[0] == c[0] { Transitive(a[1..], b[1..], c[1..]); }
  }

  lemma {:induction false} InsertSorted(x: string, s: seq<string>)
    requires IsSorted(s)
    ensures IsSorted(Insert(x, s))
  {
    if s != [] {
      Total(x, s[0]);
      if TextAtMost(x, s[0]) {
        forall j | 0 < j < |s| ensures TextAtMost(x, s[j]) { Transitive(x, s[0], s[j]); }
      } else {
        InsertSorted(x, s[1..]);
        var r := Insert(x, s[1..]);
        assert s == [s[0]] + s[1..];
        forall j | 0 <= j < |r| ensures TextAtMost(s[0], r[j]) {
          assert r[j] in multiset(r);
          if r[j] != x {
            assert r[j] in s[1..];
          }
        }
      }
    }
  }

  lemma {:induction false} CanonicalSorted(ids: seq<string>)
    ensures IsSorted(Canonical(ids))
  {
    if ids != [] {
      CanonicalSorted(ids[1..]);
      InsertSorted(ids[0], Canonical(ids[1..]));
    }
  }

  lemma HeadIsLeast(s: seq<string>, x: string)
    requires IsSorted(s) && x in s
    ensures TextAtMost(s[0], x)
  {
    Total(s[0], s[0]);
  }

  lemma SameHead(s: seq<string>, t: seq<string>)
    requires IsSorted(s) && IsSorted(t) && s != [] && t != [] && multiset(s) == multiset(t)
    ensures s[0] == t[0]
  {
    assert s[0] in multiset(t) && t[0] in multiset(s);
    HeadIsLeast(s, t[0]);
    HeadIsLeast(t, s[0]);
    Total(s[0], t[0]);
  }

  lemma {:induction false} SortedUnique(s: seq<string>, t: seq<string>)
    requires IsSorted(s) && IsSorted(t) && multiset(s) == multiset(t)
    ensures s == t
  {
    assert |multiset(s)| == |s| && |multiset(t)| == |t|;
    if s != [] {
      SameHead(s, t);
      assert s == [s[0]] + s[1..] && t == [t[0]] + t[1..];
      assert multiset(s[1..]) == multiset(s) - multiset{s[0]} == multiset(t[1..]);
      SortedUnique(s[1..], t[1..]);
    }
  }

  /** A stored set matches a requested one exactly when they hold the same ids, in any order. */
  lemma CanonicalIffSameIds(a: seq<string>, b: seq<string>)
    ensures Canonical(a) == Canonical(b) <==> multiset(a) == multiset(b)
  {
    CanonicalSorted(a);
    CanonicalSorted(b);
    if multiset(a) == multiset(b) { SortedUnique(Canonical(a), Canonical(b)); }
  }
}
