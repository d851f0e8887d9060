/** The UTF-8 form of a text, and that it determines the text. */
module Utf8 {
  import opened Common

  function OfChar(c: char): (b: Bytes)
    ensures |b| == if c as int < 0x80 then 1 else if c as int < 0x800 then 2 else if c as int < 0x10000 then 3 else 4
  {
    var x := c as int;
    if x < 0x80 then [x as byte]
    else if x < 0x800 then [(0xC0 + x / 64) as byte, Tail(x)]
    else if x < 0x10000 then [(0xE0 + x / 4096) as byte, Tail(x / 64), Tail(x)]
    else [(0xF0 + x / 262144) as byte, Tail(x / 4096), Tail(x / 64), Tail(x)]
  }

  /** A continuation byte with the last six bits of x. */
  function Tail(x: nat): byte { (0x80 + x % 64) as byte }

  function Encoded(s: string): Bytes { if s == "" then [] else OfChar(s[0]) + Encoded(s[1..]) }

  function Length(s: string): (n: nat)
    ensures n == 0 <==> s == ""
  {
    |Encoded(s)|
  }

  /** How many bytes belong to a character, by the first of them. */
  function Width(first: int): int {
    if first < 0x80 then 1 else if first < 0xE0 then 2 else if first < 0xF0 then 3 else 4
  }

  lemma WidthOf(c: char)
    ensures Width(OfChar(c)[0] as int) == |OfChar(c)|
  {
  }

  lemma SixBits(x: nat, y: nat)
    requires Tail(x) == Tail(y) && x / 64 == y / 64
    ensures x == y
  {
  }

  lemma SameChar(c: char, d: char)
    requires OfChar(c) == OfChar(d)
    ensures c == d
  {
    var x, y := c as nat, d as nat;
    WidthOf(c);
    WidthOf(d);
    if x < 0x80 {
    } else if x < 0x800 {
      SixBits(x, y);
    } else if x < 0x10000 {
      assert OfChar(c)[1] == Tail(x / 64) && OfChar(d)[1] == Tail(y / 64);
      assert x / 64 / 64 == x / 4096 && y / 64 / 64 == y / 4096;
      SixBits(x / 64, y / 64);
      SixBits(x, y);
    } else {
      assert OfChar(c)[1] == Tail(x / 4096) && OfChar(d)[1] == Tail(y / 4096);
      assert OfChar(c)[2] == Tail(x / 64) && OfChar(d)[2] == Tail(y / 64);
      assert x / 4096 / 64 == x / 262144 && y / 4096 / 64 == y / 262144;
      assert x / 64 / 64 == x / 4096 && y / 64 / 64 == y / 4096;
      SixBits(x / 4096, y / 4096);
      SixBits(x / 64, y / 64);
      SixBits(x, y);
    }
  }

  /** A text's bytes are nobody else's. */
  lemma {:induction false} EncodedUnique(s: string, t: string)
    requires Encoded(s) == Encoded(t)
    ensures s == t
  {
    if s != "" && t != "" {
      var a, b := OfChar(s[0]), OfChar(t[0]);
      WidthOf(s[0]);
      WidthOf(t[0]);
      assert Encoded(s)[0] == a[0] && Encoded(t)[0] == b[0];
      assert a == Encoded(s)[..|a|] && b == Encoded(t)[..|b|];
      SameChar(s[0], t[0]);
      assert Encoded(s[1..]) == Encoded(s)[|a|..] && Encoded(t[1..]) == Encoded(t)[|b|..];
      hide OfChar;
      EncodedUnique(s[1..], t[1..]);
      assert s == [s[0]] + s[1..] && t == [t[0]] + t[1..];
    }
  }
}
