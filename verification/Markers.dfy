/** Searching text for the bracketed markers that fence an injected block. */
module Markers {
  import opened Common
  import opened JsonText

  const CAVEMAN_START: string := Bracketed("CAVEMAN", "_START")
  const CAVEMAN_END: string := Bracketed("CAVEMAN", "_END")
  const PONYTAIL_START: string := Bracketed("PONYTAIL", "_START")
  const PONYTAIL_END: string := Bracketed("PONYTAIL", "_END")

  function Bracketed(name: string, side: string): string {
    "[" + ("CPA_" + ("TOKEN_" + ("SAVER_" + (name + side)))) + "]"
  }

  predicate Occurs(s: string, m: string, k: nat) { k + |m| <= |s| && s[k..k + |m|] == m }

  ghost predicate Contains(s: string, m: string) { exists k: nat :: Occurs(s, m, k) }

  /** Where m occurs first in s. */
  function IndexOf(s: string, m: string): (k: Option<nat>)
    ensures k.Some? ==> Occurs(s, m, k.value) && forall i: nat | i < k.value :: !Occurs(s, m, i)
    ensures k.None? ==> forall i: nat :: !Occurs(s, m, i)
  {
    Scan(s, m, 0)
  }

  function Scan(s: string, m: string, from: nat): (k: Option<nat>)
    requires forall i: nat | i < from :: !Occurs(s, m, i)
    ensures k.Some? ==> Occurs(s, m, k.value) && forall i: nat | i < k.value :: !Occurs(s, m, i)
    ensures k.None? ==> forall i: nat :: !Occurs(s, m, i)
    decreases |s| - from
  {
    if from + |m| > |s| then None else if Occurs(s, m, from) then Some(from) else Scan(s, m, from + 1)
  }

  /** What can stand inside a marker, after its opening bracket. */
  predicate Inner(c: char) { 'A' <= c <= 'Z' || c == '_' || c == ']' }

  predicate IsMarker(m: string) {
    && |m| >= 3 && m[0] == '[' && m[|m| - 1] == ']'
    && forall i | 0 < i < |m| :: Inner(m[i]) && (m[i] == ']' ==> i == |m| - 1)
  }

  predicate Word(s: string) { forall i | 0 <= i < |s| :: Letter(s[i]) }

  /** A marker of this family; nothing a stage writes around its block has the letter R in it. */
  predicate Tagged(m: string) { IsMarker(m) && |m| > 15 && m[15] == 'R' }

  lemma BracketedMarker(name: string, side: string)
    requires Word(name) && Word(side)
    ensures Tagged(Bracketed(name, side)) && |Bracketed(name, side)| == 18 + |name| + |side|
  {
    var w := name + side;
    assert Word("SAVER_" + w);
    assert Word("TOKEN_" + ("SAVER_" + w));
    var word := "CPA_" + ("TOKEN_" + ("SAVER_" + w));
    assert Word(word);
    var m := Bracketed(name, side);
    assert m == ['['] + word + [']'] && m[15] == word[14] == ("SAVER_" + w)[4];
    forall i | 0 < i < |m| - 1 ensures Inner(m[i]) && m[i] != ']' { assert m[i] == word[i - 1]; }
  }

  /** The four markers are told apart by their lengths. */
  lemma FourMarkers()
    ensures Tagged(CAVEMAN_START) && Tagged(CAVEMAN_END) && Tagged(PONYTAIL_START) && Tagged(PONYTAIL_END)
    ensures |CAVEMAN_START| == 31 && |CAVEMAN_END| == 29 && |PONYTAIL_START| == 32 && |PONYTAIL_END| == 30
  {
    BracketedMarker("CAVEMAN", "_START");
    BracketedMarker("CAVEMAN", "_END");
    BracketedMarker("PONYTAIL", "_START");
    BracketedMarker("PONYTAIL", "_END");
    hide Tagged, Bracketed;
  }

  predicate Letter(c: char) { 'A' <= c <= 'Z' || c == '_' }

  /** No marker can pass from a to b. */
  predicate CutChars(a: char, b: char) {
    !Inner(b) || (!Inner(a) && a != '[') || (b == ']' && !Letter(a))
  }

  predicate Cuttable(l: string, r: string) { l == "" || r == "" || CutChars(l[|l| - 1], r[0]) }

  lemma Occurring(s: string, m: string, k: nat)
    requires Occurs(s, m, k)
    ensures Contains(s, m)
  {
  }

  lemma ContainsAround(l: string, s: string, r: string, m: string)
    requires Contains(s, m)
    ensures Contains(l + s + r, m)
  {
    var k: nat :| Occurs(s, m, k);
    assert (l + s + r)[|l| + k..|l| + k + |m|] == s[k..k + |m|];
    Occurring(l + s + r, m, |l| + k);
  }

  /** A marker in a concatenation that the cut does not pass through lies on one side. */
  lemma OnOneSide(l: string, r: string, m: string)
    requires IsMarker(m) && Contains(l + r, m)
    requires Cuttable(l, r)
    ensures Contains(l, m) || Contains(r, m)
  {
    var k: nat :| Occurs(l + r, m, k);
    assert m == (l + r)[k..k + |m|];
    if k + |m| <= |l| {
      assert l[k..k + |m|] == m;
      Occurring(l, m, k);
    } else if k >= |l| {
      assert r[k - |l|..k - |l| + |m|] == m;
      Occurring(r, m, k - |l|);
    } else {
      CutInside(l, r, m, k);
    }
  }

  lemma CutInside(l: string, r: string, m: string, k: nat)
    requires IsMarker(m) && Occurs(l + r, m, k) && k < |l| < k + |m|
    ensures !Cuttable(l, r)
  {
    assert m[|l| - k] == (l + r)[|l|] && m[|l| - 1 - k] == (l + r)[|l| - 1];
  }

  /** Text put between l and r adds only the markers it brings along. */
  lemma NoNewMarker(l: string, x: string, r: string, m: string)
    requires IsMarker(m) && Contains(l + x + r, m) && x != "" && !Inner(x[0])
    requires Cuttable(x, r)
    ensures Contains(l + r, m) || Contains(x, m)
  {
    assert l + x + r == l + (x + r);
    OnOneSide(l, x + r, m);
    if Contains(l, m) {
      ContainsAround("", l, r, m);
      assert "" + l + r == l + r;
    } else {
      OnOneSide(x, r, m);
      if Contains(r, m) {
        ContainsAround(l, r, "", m);
        assert l + r + "" == l + r;
      }
    }
  }

  /** A marker survives text put in beside it. */
  lemma MarkerKept(l: string, x: string, r: string, m: string)
    requires IsMarker(m) && Contains(l + r, m)
    requires Cuttable(l, r)
    ensures Contains(l + x + r, m)
  {
    OnOneSide(l, r, m);
    if Contains(l, m) {
      ContainsAround("", l, x + r, m);
      assert "" + l + (x + r) == l + x + r;
    } else {
      ContainsAround(l + x, r, "", m);
      assert l + x + r + "" == l + x + r;
    }
  }

  lemma MarkerInMarker(s: string, m: string)
    requires IsMarker(s) && IsMarker(m) && Contains(s, m)
    ensures s == m
  {
    var k: nat :| Occurs(s, m, k);
    assert m[0] == s[k] && m[|m| - 1] == s[k + |m| - 1];
  }

  predicate AllInner(s: string) { forall i | 0 <= i < |s| :: Inner(s[i]) }

  lemma MarkerTail(m: string)
    requires IsMarker(m)
    ensures |m| > 0 && m == ['['] + m[1..] && AllInner(m[1..])
  {
  }

  lemma EncodedNotEmpty(s: string, m: string, k: nat)
    requires IsMarker(m) && Occurs(Encode(s), m, k)
    ensures s != ""
  {
  }

  /** Encoding text neither makes nor hides a marker. */
  lemma {:induction false} EncodedMarker(s: string, m: string, k: nat)
    requires IsMarker(m) && Occurs(Encode(s), m, k)
    ensures Contains(s, m)
    decreases |s|
  {
    hide IsMarker, AllInner, Contains, EncodeChar, Encode, Occurs;
    EncodedNotEmpty(s, m, k);
    MarkerTail(m);
    EncodeStep(s);
    var e := EncodeChar(s[0]);
    assert [s[0]] + s[1..] == s;
    if k >= |e| {
      OccursLater(e, Encode(s[1..]), m, k);
      EncodedMarker(s[1..], m, k - |e|);
      ContainsAround([s[0]], s[1..], "", m);
      assert [s[0]] + s[1..] + "" == s;
    } else {
      OccursHere(e, Encode(s[1..]), m, k);
      NoBracketInEscape(s[0], k);
      EncodedAtStart(s[0], s[1..], m[1..]);
    }
  }

  lemma OccursLater(a: string, b: string, m: string, k: nat)
    requires Occurs(a + b, m, k) && k >= |a|
    ensures Occurs(b, m, k - |a|)
  {
    assert b[k - |a|..k - |a| + |m|] == (a + b)[k..k + |m|];
  }

  lemma OccursHere(a: string, b: string, m: string, k: nat)
    requires Occurs(a + b, m, k) && k < |a| && m != ""
    ensures a[k] == m[0]
  {
    assert m[0] == (a + b)[k..k + |m|][0];
  }

  lemma EncodedAtStart(c: char, s: string, m: string)
    requires AllInner(m) && c == '[' && Occurs([c] + Encode(s), ['['] + m, 0)
    ensures Contains([c] + s, ['['] + m)
  {
    hide Encode, AllInner;
    var rest := Encode(s);
    assert m == (['['] + m)[1..] == ([c] + rest)[..1 + |m|][1..] == rest[..|m|];
    EncodedInner(s, m);
    assert ([c] + s)[..1 + |m|] == [c] + s[..|m|];
    Occurring([c] + s, ['['] + m, 0);
  }

  lemma EncodeStep(s: string)
    requires s != ""
    ensures Encode(s) == EncodeChar(s[0]) + Encode(s[1..])
  {
    hide EncodeChar;
  }

  lemma NoBracketInEscape(c: char, k: nat)
    requires k < |EncodeChar(c)| && EncodeChar(c)[k] == '['
    ensures EncodeChar(c) == [c] && k == 0
  {
  }

  lemma {:induction false} EncodedInner(s: string, m: string)
    requires |m| <= |Encode(s)| && Encode(s)[..|m|] == m && AllInner(m)
    ensures |m| <= |s| && s[..|m|] == m
    decreases |m|
  {
    if m != "" {
      var e, rest := EncodeChar(s[0]), Encode(s[1..]);
      EncodeStep(s);
      assert (e + rest)[0] == Encode(s)[..|m|][0] == m[0] && Inner(m[0]);
      InnerPlain(s[0]);
      hide EncodeChar, Encode;
      assert rest[..|m| - 1] == ([s[0]] + rest)[..|m|][1..] == m[1..];
      EncodedInner(s[1..], m[1..]);
      hide AllInner;
      assert s[..|m|] == [s[0]] + s[1..][..|m| - 1];
    }
  }

  lemma InnerPlain(c: char)
    requires Inner(EncodeChar(c)[0])
    ensures EncodeChar(c) == [c]
  {
  }

  lemma NoMarkerEncoded(s: string, m: string)
    requires IsMarker(m) && !Contains(s, m)
    ensures !Contains(Encode(s), m)
  {
    if Contains(Encode(s), m) {
      var k: nat :| Occurs(Encode(s), m, k);
      EncodedMarker(s, m, k);
    }
  }

  lemma {:induction false} EncodeInner(s: string)
    requires forall i | 0 <= i < |s| :: Inner(s[i]) || s[i] == '['
    ensures Encode(s) == s
  {
    if s != "" { EncodeInner(s[1..]); }
  }
}
