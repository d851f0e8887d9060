/** What is hashed to key one request: length-prefixed fields, so that no two requests share it. */
module DedupeKeys {
  import opened Common

  const WORD: nat := 0x1_0000_0000_0000_0000

  datatype Request = Request(fromFormat: Bytes, toFormat: Bytes, model: Bytes, stream: bool, body: Bytes)

  function BigEndian(n: nat, width: nat): (s: Bytes)
    ensures |s| == width
  {
    if width == 0 then [] else BigEndian(n / 256, width - 1) + [(n % 256) as byte]
  }

  function Number(s: Bytes): nat {
    if s == [] then 0 else Number(s[..|s| - 1]) * 256 + s[|s| - 1] as nat
  }

  function Limit(width: nat): nat { if width == 0 then 1 else 256 * Limit(width - 1) }

  lemma {:induction false} NumberOfBigEndian(n: nat, width: nat)
    requires n < Limit(width)
    ensures Number(BigEndian(n, width)) == n
  {
    if width > 0 {
      NumberOfBigEndian(n / 256, width - 1);
      assert BigEndian(n, width)[..width - 1] == BigEndian(n / 256, width - 1);
    }
  }

  lemma WordLimit()
    ensures Limit(8) == WORD
  {
    assert Limit(2) == 0x1_0000;
    assert Limit(4) == 0x1_0000_0000;
    assert Limit(6) == 0x1_0000_0000_0000;
  }

  function Field(value: Bytes): Bytes { BigEndian(|value|, 8) + value }

  function Flag(b: bool): byte { if b then 1 else 0 }

  function Encoded(generation: nat, r: Request): Bytes {
    BigEndian(generation, 8)
    + (Field(r.fromFormat) + (Field(r.toFormat) + (Field(r.model) + ([Flag(r.stream)] + Field(r.body)))))
  }

  /** The widths that Go gives the generation number and the lengths. */
  predicate Representable(generation: nat, r: Request) {
    && generation < WORD && |r.fromFormat| < WORD && |r.toFormat| < WORD && |r.model| < WORD && |r.body| < WORD
  }

  lemma SamePrefix(a: Bytes, x: Bytes, b: Bytes, y: Bytes)
    requires |a| == |b| && a + x == b + y
    ensures a == b && x == y
  {
    assert a == (a + x)[..|a|] && b == (b + y)[..|a|];
    assert x == (a + x)[|a|..] && y == (b + y)[|a|..];
  }

  lemma WordUnique(n: nat, m: nat)
    requires n < WORD && m < WORD && BigEndian(n, 8) == BigEndian(m, 8)
    ensures n == m
  {
    WordLimit();
    NumberOfBigEndian(n, 8);
    NumberOfBigEndian(m, 8);
  }

  lemma FieldUnique(a: Bytes, x: Bytes, b: Bytes, y: Bytes)
    requires |a| < WORD && |b| < WORD && Field(a) + x == Field(b) + y
    ensures a == b && x == y
  {
    hide BigEndian;
    assert Field(a) + x == BigEndian(|a|, 8) + (a + x);
    assert Field(b) + y == BigEndian(|b|, 8) + (b + y);
    SamePrefix(BigEndian(|a|, 8), a + x, BigEndian(|b|, 8), b + y);
    WordUnique(|a|, |b|);
    SamePrefix(a, x, b, y);
  }

  /** Two calls share an encoding only if they are for one generation and one request. */
  lemma EncodedUnique(g: nat, r: Request, h: nat, q: Request)
    requires Representable(g, r) && Representable(h, q) && Encoded(g, r) == Encoded(h, q)
    ensures g == h && r == q
  {
    hide BigEndian, Field;
    var r3, q3 := [Flag(r.stream)] + Field(r.body), [Flag(q.stream)] + Field(q.body);
    var r2, q2 := Field(r.model) + r3, Field(q.model) + q3;
    var r1, q1 := Field(r.toFormat) + r2, Field(q.toFormat) + q2;
    SamePrefix(BigEndian(g, 8), Field(r.fromFormat) + r1, BigEndian(h, 8), Field(q.fromFormat) + q1);
    WordUnique(g, h);
    FieldUnique(r.fromFormat, r1, q.fromFormat, q1);
    FieldUnique(r.toFormat, r2, q.toFormat, q2);
    FieldUnique(r.model, r3, q.model, q3);
    SamePrefix([Flag(r.stream)], Field(r.body), [Flag(q.stream)], Field(q.body));
    assert [Flag(r.stream)][0] == [Flag(q.stream)][0];
    assert Field(r.body) + [] == Field(r.body) && Field(q.body) + [] == Field(q.body);
    FieldUnique(r.body, [], q.body, []);
  }

  /** The stream that is hashed. */
  class Stream {
    var written: Bytes

    constructor ()
      ensures written == []
    {
      written := [];
    }

    method Write(value: Bytes)
      modifies this
      ensures written == old(written) + value
    {
      written := written + value;
    }

    method WriteField(value: Bytes)
      modifies this
      ensures written == old(written) + Field(value)
    {
      Write(BigEndian(|value|, 8));
      Write(value);
    }
  }

  method Key(generation: nat, r: Request) returns (key: Bytes)
    ensures key == Encoded(generation, r)
  {
    hide BigEndian, Field;
    var stream := new Stream();
    stream.Write(BigEndian(generation, 8));
    stream.WriteField(r.fromFormat);
    stream.WriteField(r.toFormat);
    stream.WriteField(r.model);
    stream.Write(if r.stream then [1] else [0]);
    stream.WriteField(r.body);
    key := stream.written;
  }
}
