/**
 String literals of section 7 of RFC 8259, as the JSON encoder writes them and as the JSON
 readers decode them. Text is a sequence of Unicode scalar values; a literal is handled
 without its two quotes ("raw").
 */
module JsonText {

  function HexDigit(n: nat): char
    requires n < 16
  {
    if n < 10 then '0' + n as char else 'a' + (n - 10) as char
  }

  predicate IsHex(c: char) {
    '0' <= c <= '9' || 'a' <= c <= 'f' || 'A' <= c <= 'F'
  }

  function HexValue(c: char): (n: nat)
    requires IsHex(c)
    ensures n < 16
  {
    if c <= '9' then c as int - '0' as int
    else if c <= 'F' then c as int - 'A' as int + 10
    else c as int - 'a' as int + 10
  }

  function Hex4(n: nat): (h: string)
    requires n < 0x10000
    ensures |h| == 4
  {
    var q := n / 16;
    [HexDigit(q / 16 / 16), HexDigit(q / 16 % 16), HexDigit(q % 16), HexDigit(n % 16)]
  }

  predicate IsHex4(h: string) {
    |h| == 4 && IsHex(h[0]) && IsHex(h[1]) && IsHex(h[2]) && IsHex(h[3])
  }

  function CodeUnit(h: string): (n: nat)
    requires IsHex4(h)
    ensures n < 0x10000
  {
    HexValue(h[0]) * 4096 + HexValue(h[1]) * 256 + HexValue(h[2]) * 16 + HexValue(h[3])
  }

  predicate IsShort(c: char) {
    c == '"' || c == '\\' || c == '/' || c == 'b' || c == 'f' || c == 'n' || c == 'r' || c == 't'
  }

  function ShortValue(c: char): char
    requires IsShort(c)
  {
    if c == 'b' then '\U{8}' else if c == 'f' then '\U{C}' else if c == 'n' then '\n'
    else if c == 'r' then '\r' else if c == 't' then '\t' else c
  }

  predicate High(n: nat) { 0xD800 <= n < 0xDC00 }
  predicate Low(n: nat) { 0xDC00 <= n < 0xE000 }

  /** Length of the first unit (a plain character or one escape); 0 when it is malformed. */
  function UnitLen(r: string): (n: nat)
    requires |r| > 0
    ensures n <= |r|
  {
    if r[0] == '\\' then
      if |r| >= 2 && IsShort(r[1]) then 2
      else if |r| >= 6 && r[1] == 'u' && IsHex4(r[2..6]) then 6
      else 0
    else if r[0] < ' ' || r[0] == '"' then 0
    else 1
  }

  predicate ValidRaw(r: string) {
    r == "" || (UnitLen(r) > 0 && ValidRaw(r[UnitLen(r)..]))
  }

  /** True when a \u escape of a low surrogate opens r. */
  predicate OpensLow(r: string) {
    |r| > 0 && UnitLen(r) == 6 && Low(CodeUnit(r[2..6]))
  }

  /** The scalar value of a surrogate pair. */
  function Pair(high: nat, low: nat): char
    requires High(high) && Low(low)
  {
    (0x10000 + (high - 0xD800) * 1024 + (low - 0xDC00)) as char
  }

  function Unpaired(u: nat): char
    requires u < 0x10000
  {
    if High(u) || Low(u) then '\U{FFFD}' else u as char
  }

  /** The first decoded character and how much of the literal it takes up. */
  function First(r: string): (cn: (char, nat))
    requires |r| > 0 && UnitLen(r) > 0
    ensures 0 < cn.1 <= |r|
  {
    if UnitLen(r) == 1 then (r[0], 1)
    else if UnitLen(r) == 2 then (ShortValue(r[1]), 2)
    else
      var u := CodeUnit(r[2..6]);
      if High(u) && OpensLow(r[6..]) then (Pair(u, CodeUnit(r[6..][2..6])), 12)
      else (Unpaired(u), 6)
  }

  /** The decoded text; decoding stops at a malformed unit. */
  function Decode(r: string): string {
    if r == "" || UnitLen(r) == 0 then ""
    else [First(r).0] + Decode(r[First(r).1..])
  }

  predicate NeedsHex(c: char) {
    c < ' ' || c == '<' || c == '>' || c == '&' || c == '\U{2028}' || c == '\U{2029}'
  }

  function EncodeChar(c: char): string {
    if c == '"' then "\\\"" else if c == '\\' then "\\\\"
    else if c == '\U{8}' then "\\b" else if c == '\U{C}' then "\\f" else if c == '\n' then "\\n"
    else if c == '\r' then "\\r" else if c == '\t' then "\\t"
    else if NeedsHex(c) then "\\u" + Hex4(c as int)
    else [c]
  }

  function Encode(s: string): string {
    if s == "" then "" else EncodeChar(s[0]) + Encode(s[1..])
  }

  lemma HexDigitValue(n: nat)
    requires n < 16
    ensures IsHex(HexDigit(n)) && HexValue(HexDigit(n)) == n
  {
  }

  lemma CodeUnitOfHex4(n: nat)
    requires n < 0x10000
    ensures IsHex4(Hex4(n)) && CodeUnit(Hex4(n)) == n
  {
    var q := n / 16;
    FourDigits(q / 16 / 16, q / 16 % 16, q % 16, n % 16);
  }

  lemma FourDigits(a: nat, b: nat, c: nat, d: nat)
    requires a < 16 && b < 16 && c < 16 && d < 16
    ensures var h := [HexDigit(a), HexDigit(b), HexDigit(c), HexDigit(d)];
            IsHex4(h) && CodeUnit(h) == a * 4096 + b * 256 + c * 16 + d
  {
    HexDigitValue(a);
    HexDigitValue(b);
    HexDigitValue(c);
    HexDigitValue(d);
  }

  lemma EncodeCharUnit(c: char, rest: string)
    ensures var r := EncodeChar(c) + rest;
            && |r| > 0 && UnitLen(r) == |EncodeChar(c)| > 0
            && r[UnitLen(r)..] == rest && !OpensLow(r)
            && Decode(r) == [c] + Decode(rest)
  {
    var e := EncodeChar(c);
    var r := e + rest;
    assert r[|e|..] == rest;
    if |e| == 6 {
      HexUnit(c, rest);
    } else if |e| == 2 {
      assert r[0] == '\\' && r[1] == e[1];
    }
  }

  lemma HexUnit(c: char, rest: string)
    requires NeedsHex(c)
    ensures var r := "\\u" + Hex4(c as int) + rest;
            && UnitLen(r) == 6 && CodeUnit(r[2..6]) == c as int && First(r) == (c, 6)
  {
    hide HexDigit, CodeUnit, IsHex;
    var r := "\\u" + Hex4(c as int) + rest;
    CodeUnitOfHex4(c as int);
    assert r[2..6] == Hex4(c as int);
  }

  /** Decoding undoes encoding, and what the encoder writes is a legal literal. */
  lemma {:induction false} DecodeEncode(s: string)
    ensures Decode(Encode(s)) == s && ValidRaw(Encode(s)) && !OpensLow(Encode(s))
  {
    if s != "" {
      DecodeEncode(s[1..]);
      EncodeCharUnit(s[0], Encode(s[1..]));
    }
  }

  lemma {:induction false} EncodeConcat(s: string, t: string)
    ensures Encode(s + t) == Encode(s) + Encode(t)
  {
    if s == "" {
      assert s + t == t;
    } else {
      assert (s + t)[0] == s[0] && (s + t)[1..] == s[1..] + t;
      EncodeConcat(s[1..], t);
    }
  }

  lemma UnitLenConcat(a: string, b: string)
    requires |a| > 0 && UnitLen(a) > 0
    ensures UnitLen(a + b) == UnitLen(a)
    ensures (a + b)[UnitLen(a)..] == a[UnitLen(a)..] + b
    ensures OpensLow(a + b) == OpensLow(a)
  {
    if UnitLen(a) == 6 { assert (a + b)[2..6] == a[2..6]; }
  }

  lemma {:induction false} ValidRawConcat(a: string, b: string)
    requires ValidRaw(a)
    ensures ValidRaw(a + b) == ValidRaw(b)
  {
    if a == "" {
      assert a + b == b;
    } else {
      UnitLenConcat(a, b);
      ValidRawConcat(a[UnitLen(a)..], b);
    }
  }

  lemma FirstConcat(a: string, b: string)
    requires |a| > 0 && ValidRaw(a) && !OpensLow(b)
    ensures UnitLen(a + b) > 0 && First(a + b) == First(a)
    ensures UnitLen(a) > 0 && ValidRaw(a[First(a).1..])
  {
    UnitLenConcat(a, b);
    if UnitLen(a) == 6 {
      var rest := a[6..];
      assert (a + b)[2..6] == a[2..6] && (a + b)[6..] == rest + b;
      OpensLowConcat(rest, b);
      SkipLow(a);
    }
  }

  lemma OpensLowConcat(a: string, b: string)
    requires ValidRaw(a) && !OpensLow(b)
    ensures OpensLow(a + b) == OpensLow(a)
    ensures OpensLow(a) ==> (a + b)[2..6] == a[2..6]
  {
    hide UnitLen;
    if a == "" { assert a + b == b; } else { UnitLenConcat(a, b); }
  }

  lemma SkipLow(a: string)
    requires |a| > 0 && UnitLen(a) == 6 && ValidRaw(a)
    ensures OpensLow(a[6..]) ==> |a| >= 12 && ValidRaw(a[12..])
  {
    hide UnitLen;
    if OpensLow(a[6..]) { assert a[6..][6..] == a[12..]; }
  }

  /** Cutting between two units cuts the decoded text, unless it splits a surrogate pair. */
  lemma {:induction false} DecodeConcat(a: string, b: string)
    requires ValidRaw(a) && !OpensLow(b)
    ensures Decode(a + b) == Decode(a) + Decode(b)
    decreases |a|
  {
    if a == "" {
      assert a + b == b;
    } else {
      hide First, UnitLen, ValidRaw, OpensLow, Decode;
      FirstConcat(a, b);
      var n := First(a).1;
      DecodeStep(a);
      DecodeStep(a + b);
      DropConcat(a, b, n);
      DecodeConcat(a[n..], b);
      Regroup(First(a).0, Decode(a[n..]), Decode(b));
    }
  }

  lemma DropConcat(a: string, b: string, n: nat)
    requires n <= |a|
    ensures (a + b)[n..] == a[n..] + b
  {
  }

  lemma Regroup(c: char, x: string, y: string)
    ensures [c] + (x + y) == [c] + x + y
  {
  }

  lemma DecodeStep(r: string)
    requires |r| > 0 && UnitLen(r) > 0
    ensures Decode(r) == [First(r).0] + Decode(r[First(r).1..])
  {
    hide First, UnitLen;
  }

  /** A character that no escape contains after its first backslash is a unit of its own. */
  lemma {:induction false} UnitBoundary(r: string, k: nat)
    requires ValidRaw(r) && k < |r|
    requires r[k] == '['
    ensures ValidRaw(r[..k]) && ValidRaw(r[k..]) && !OpensLow(r[k..])
  {
    var n := UnitLen(r);
    if k == 0 {
      assert r[..k] == "" && r[k..] == r;
    } else {
      BracketAfterUnit(r, k);
      UnitBoundary(r[n..], k - n);
      assert r[n..][..k - n] == r[n..k] && r[n..][k - n..] == r[k..];
      PrefixUnit(r, k);
    }
  }

  lemma BracketAfterUnit(r: string, k: nat)
    requires 0 < k < |r| && UnitLen(r) > 0 && r[k] == '['
    ensures k >= UnitLen(r)
  {
    if UnitLen(r) == 6 {
      var h := r[2..6];
      assert forall i | 2 <= i < 6 :: r[i] == h[i - 2];
    }
  }

  lemma PrefixUnit(r: string, k: nat)
    requires |r| > 0 && 0 < UnitLen(r) <= k <= |r|
    ensures UnitLen(r[..k]) == UnitLen(r) && r[..k][UnitLen(r)..] == r[UnitLen(r)..k]
  {
    if UnitLen(r) == 6 { assert r[..k][2..6] == r[2..6]; }
  }

  lemma QuoteIsNoUnit(a: string, b: string)
    requires ValidRaw(a) && ValidRaw(b)
    ensures a != "" ==> a[0] != '"' && UnitLen(a) > 0 && ValidRaw(a[UnitLen(a)..])
    ensures b != "" ==> b[0] != '"' && UnitLen(b) > 0 && ValidRaw(b[UnitLen(b)..])
  {
  }

  /** A literal ends at its first unescaped quote, so it is determined by the text it opens. */
  lemma {:induction false} RawRun(a: string, b: string, u: string, v: string)
    requires ValidRaw(a) && ValidRaw(b) && a + u == b + v
    requires u != "" && u[0] == '"' && v != "" && v[0] == '"'
    ensures a == b && u == v
  {
    hide UnitLen, ValidRaw;
    QuoteIsNoUnit(a, b);
    assert (a + u)[0] == (if a == "" then '"' else a[0]);
    assert (b + v)[0] == (if b == "" then '"' else b[0]);
    if a == "" && b == "" {
      assert a + u == u && b + v == v;
    } else {
      UnitLenConcat(a, u);
      UnitLenConcat(b, v);
      var n := UnitLen(a);
      RawRun(a[n..], b[n..], u, v);
      SamePrefix(a, b, u, v, n);
    }
  }

  lemma SamePrefix(a: string, b: string, u: string, v: string, n: nat)
    requires a + u == b + v && n <= |a| && n <= |b| && a[n..] == b[n..]
    ensures a == b
  {
    assert a[..n] == (a + u)[..n] == (b + v)[..n] == b[..n];
    assert a == a[..n] + a[n..] && b == b[..n] + b[n..];
  }

  lemma RawUnique(a: string, b: string, s: string, t: string)
    requires ValidRaw(a) && ValidRaw(b)
    requires a + "\"" + s == b + "\"" + t
    ensures a == b && s == t
  {
    hide ValidRaw;
    assert a + "\"" + s == a + ("\"" + s) && b + "\"" + t == b + ("\"" + t);
    RawRun(a, b, "\"" + s, "\"" + t);
    assert s == ("\"" + s)[1..] && t == ("\"" + t)[1..];
  }
}
