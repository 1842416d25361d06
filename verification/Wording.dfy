/** Which texts count as an approval or an escalation, said of the text itself. */
module Wording {
  import opened Phrases

  predicate IsAll(s: string, cut: char -> bool) { forall i | 0 <= i < |s| :: cut(s[i]) }

  /** It can be stripped no further. */
  predicate IsBare(s: string, cut: char -> bool) { s != "" && !cut(s[0]) && !cut(s[|s| - 1]) }

  lemma {:induction false} StripsTo(l: string, s: string, m: string, cut: char -> bool)
    requires IsAll(l, cut) && IsAll(m, cut) && IsBare(s, cut)
    ensures Strip(l + s + m, cut) == s
    decreases |l| + |m|
  {
    var t := l + s + m;
    if l != "" {
      assert t[1..] == l[1..] + s + m && t[0] == l[0];
      StripsTo(l[1..], s, m, cut);
    } else if m != "" {
      assert t[0] == s[0] && t[|t| - 1] == m[|m| - 1] && t[..|t| - 1] == l + s + m[..|m| - 1];
      StripsTo(l, s, m[..|m| - 1], cut);
    } else {
      assert t == s;
    }
  }

  lemma {:induction false} StripLeaves(text: string, cut: char -> bool) returns (l: string, m: string)
    ensures text == l + Strip(text, cut) + m && IsAll(l, cut) && IsAll(m, cut)
    ensures Strip(text, cut) == "" || IsBare(Strip(text, cut), cut)
  {
    l, m := "", "";
    if text != "" && cut(text[0]) {
      l, m := StripLeaves(text[1..], cut);
      assert text == [text[0]] + text[1..];
      l := [text[0]] + l;
    } else if text != "" && cut(text[|text| - 1]) {
      l, m := StripLeaves(text[..|text| - 1], cut);
      assert text == text[..|text| - 1] + [text[|text| - 1]];
      m := m + [text[|text| - 1]];
    }
  }

  // ----- what is said -----

  /** The character, in either case. */
  predicate IsCaseOf(c: char, p: char) { c == p || ('A' <= c <= 'Z' && c as int + 32 == p as int) }

  predicate IsInAnyCase(said: string, phrase: string) {
    |said| == |phrase| && forall i | 0 <= i < |said| :: IsCaseOf(said[i], phrase[i])
  }

  /** Whitespace, then full stops, exclamation and question marks, quotes and blanks, and then the words. */
  predicate IsWrapped(text: string, a: string, b: string, said: string, c: string, d: string) {
    && text == a + (b + said + c) + d
    && IsAll(a, IsSpace) && IsAll(d, IsSpace) && IsAll(b, IsEdge) && IsAll(c, IsEdge)
  }

  ghost predicate IsSaid(text: string, phrase: string) {
    exists a, b, said, c, d :: IsWrapped(text, a, b, said, c, d) && IsInAnyCase(said, phrase)
  }

  /** Lower-case letters, commas and blanks, with letters at both ends. */
  predicate IsPhrase(p: string) {
    && p != "" && 'a' <= p[0] <= 'z' && 'a' <= p[|p| - 1] <= 'z'
    && forall i | 0 <= i < |p| :: 'a' <= p[i] <= 'z' || p[i] == ',' || p[i] == ' '
  }

  function Lowered(t: string): (r: string)
    ensures |r| == |t| && forall i | 0 <= i < |t| :: r[i] == Lower(t[i])
  {
    seq(|t|, i requires 0 <= i < |t| => Lower(t[i]))
  }

  lemma CaseIsLower(c: char, p: char)
    requires 'a' <= p <= 'z' || p == ',' || p == ' '
    ensures Lower(c) == p <==> IsCaseOf(c, p)
  {
  }

  lemma AnyCaseIsLowered(said: string, p: string)
    requires IsPhrase(p)
    ensures Lowered(said) == p <==> IsInAnyCase(said, p)
  {
    if |said| == |p| {
      forall i | 0 <= i < |p| ensures Lower(said[i]) == p[i] <==> IsCaseOf(said[i], p[i]) {
        CaseIsLower(said[i], p[i]);
      }
    }
  }

  lemma BareInAnyCase(said: string, p: string)
    requires IsPhrase(p) && IsInAnyCase(said, p)
    ensures IsBare(said, IsSpace) && IsBare(said, IsEdge)
  {
    assert IsCaseOf(said[0], p[0]) && IsCaseOf(said[|said| - 1], p[|p| - 1]);
  }

  lemma InPrefix(text: string, l: string, i: nat, cut: char -> bool)
    requires l <= text && IsAll(l, cut) && i < |text|
    ensures i < |l| ==> cut(text[i])
  {
    if i < |l| { assert l[i] == text[i]; }
  }

  lemma InSuffix(text: string, s: string, m: string, i: nat, cut: char -> bool)
    requires text == s + m && IsAll(m, cut) && i < |text|
    ensures i >= |s| ==> cut(text[i])
  {
    if i >= |s| { assert m[i - |s|] == text[i]; }
  }

  /** Stripping whitespace stops inside the wrapping of edge characters. */
  lemma StripStops(text: string, l: string, s: string, m: string,
      a: string, b: string, said: string, c: string, d: string)
    requires IsWrapped(text, a, b, said, c, d) && IsBare(said, IsSpace)
    requires text == l + s + m && IsAll(l, IsSpace) && IsAll(m, IsSpace) && IsBare(s, IsSpace)
    ensures |a| <= |l| <= |a| + |b| && |d| <= |m| <= |d| + |c|
  {
    hide IsSpace;
    var i, j := |a| + |b|, |a| + |b| + |said| - 1;
    assert text[i] == said[0] && text[j] == said[|said| - 1];
    var k := |l| + |s| - 1;
    assert text[|l|] == s[0] && text[k] == s[|s| - 1];
    InPrefix(text, l, i, IsSpace);
    InPrefix(text, a, |l|, IsSpace);
    InSuffix(text, l + s, m, j, IsSpace);
    InSuffix(text, a + (b + said + c), d, k, IsSpace);
  }

  lemma Middle(l: string, s: string, m: string, a: string, b: string, said: string, c: string, d: string)
    requires l + s + m == a + (b + said + c) + d && |a| <= |l| <= |a| + |b| && |d| <= |m| <= |d| + |c|
    ensures s == b[|l| - |a|..] + said + c[..|c| - (|m| - |d|)]
  {
    var t := l + s + m;
    assert s == t[|l|..|t| - |m|];
    assert t == a + (b + said + c) + d;
  }

  /** Stripping whitespace takes `a`, `d` and perhaps blanks of `b` and `c`. */
  lemma WhitespaceGoes(text: string, a: string, b: string, said: string, c: string, d: string)
    returns (b': string, c': string)
    requires IsWrapped(text, a, b, said, c, d) && IsBare(said, IsSpace)
    ensures Strip(text, IsSpace) == b' + said + c' && IsAll(b', IsEdge) && IsAll(c', IsEdge)
  {
    hide IsSpace, IsEdge, Strip;
    var l, m := StripLeaves(text, IsSpace);
    var s := Strip(text, IsSpace);
    NotEmptied(text, l, s, m, a, b, said, c, d);
    StripStops(text, l, s, m, a, b, said, c, d);
    Middle(l, s, m, a, b, said, c, d);
    b', c' := b[|l| - |a|..], c[..|c| - (|m| - |d|)];
  }

  lemma NotEmptied(text: string, l: string, s: string, m: string,
      a: string, b: string, said: string, c: string, d: string)
    requires IsWrapped(text, a, b, said, c, d) && IsBare(said, IsSpace)
    requires text == l + s + m && IsAll(l, IsSpace) && IsAll(m, IsSpace)
    ensures s != ""
  {
    hide IsSpace;
    var i := |a| + |b|;
    assert text[i] == said[0];
    InPrefix(text, l, i, IsSpace);
    InSuffix(text, l + s, m, i, IsSpace);
  }

  /** A text comes to a phrase exactly if it is the phrase, in any case, wrapped like that. */
  lemma NormalizedIff(text: string, p: string)
    requires IsPhrase(p)
    ensures Normalize(text) == p <==> IsSaid(text, p)
  {
    var s := Strip(text, IsSpace);
    var t := Strip(s, IsEdge);
    assert Normalize(text) == Lowered(t);
    AnyCaseIsLowered(t, p);
    if Lowered(t) == p {
      var a, d := StripLeaves(text, IsSpace);
      var b, c := StripLeaves(s, IsEdge);
      assert IsWrapped(text, a, b, t, c, d);
    }
    if IsSaid(text, p) {
      var a, b, said, c, d :| IsWrapped(text, a, b, said, c, d) && IsInAnyCase(said, p);
      BareInAnyCase(said, p);
      var b', c' := WhitespaceGoes(text, a, b, said, c, d);
      StripsTo(b', said, c', IsEdge);
    }
  }

  const APPROVALS := ["yes", "yes, approve", "yes approve", "approve", "approved", "confirm", "go ahead"]
  const ESCALATIONS := ["yes, escalate", "yes escalate", "escalate"]

  ghost predicate IsOneOf(text: string, phrases: seq<string>) {
    exists i | 0 <= i < |phrases| :: IsSaid(text, phrases[i])
  }

  lemma OneOfIff(text: string, phrases: seq<string>)
    requires forall i | 0 <= i < |phrases| :: IsPhrase(phrases[i])
    ensures IsOneOf(text, phrases) <==> Normalize(text) in phrases
  {
    forall i | 0 <= i < |phrases| ensures Normalize(text) == phrases[i] <==> IsSaid(text, phrases[i]) {
      NormalizedIff(text, phrases[i]);
    }
  }

  /** The user approves a grant exactly by one of the seven phrases. */
  lemma ApprovalIff(text: string)
    ensures IsGrantApproval(text) <==> IsOneOf(text, APPROVALS)
  {
    hide Normalize, IsOneOf;
    assert forall i | 0 <= i < |APPROVALS| :: IsPhrase(APPROVALS[i]);
    OneOfIff(text, APPROVALS);
    var t := Normalize(text);
    assert APPROVALS[0] == "yes" && APPROVALS[1] == "yes, approve" && APPROVALS[2] == "yes approve";
    assert APPROVALS[3] == "approve" && APPROVALS[4] == "approved" && APPROVALS[5] == "confirm";
    assert APPROVALS[6] == "go ahead";
  }

  /** And escalates exactly by one of the three; no text does both. */
  lemma EscalationIff(text: string)
    ensures IsEscalation(text) <==> IsOneOf(text, ESCALATIONS)
    ensures !(IsEscalation(text) && IsGrantApproval(text))
  {
    hide Normalize, IsOneOf;
    assert forall i | 0 <= i < |ESCALATIONS| :: IsPhrase(ESCALATIONS[i]);
    OneOfIff(text, ESCALATIONS);
    assert ESCALATIONS[0] == "yes, escalate" && ESCALATIONS[1] == "yes escalate" && ESCALATIONS[2] == "escalate";
    var t := Normalize(text);
    if t == "escalate" || t == "yes escalate" || t == "yes, escalate" { assert t[|t| - 3] == 'a' && |t| >= 8; }
  }
}
