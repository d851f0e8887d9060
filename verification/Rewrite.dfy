/** The rewriting loop: collect edits in any order, sort them, copy the gaps and the new literals. */
module Rewriting {
  import opened Common
  import opened JsonEdit
  import opened JsonSplice
  import opened Payloads

  /** Sorts edits that come in no particular order and start at different places. */
  method SortByStart(edits: set<Piece>) returns (sorted: seq<Piece>)
    requires forall e, f | e in edits && f in edits && e != f :: e.start != f.start
    ensures ByStart(sorted) && forall e :: e in sorted <==> e in edits
  {
    sorted := [];
    var rest := edits;
    while rest != {}
      invariant rest <= edits && ByStart(sorted)
      invariant forall e :: e in sorted <==> e in edits && e !in rest
      decreases |rest|
    {
      ghost var some := Pick(rest);
      var e :| e in rest;
      rest := rest - {e};
      sorted := Insert(sorted, e);
    }
  }

  method Insert(sorted: seq<Piece>, e: Piece) returns (r: seq<Piece>)
    requires ByStart(sorted) && forall f | f in sorted :: f.start != e.start
    ensures ByStart(r) && forall f :: f in r <==> f in sorted || f == e
  {
    var at := |sorted|;
    while at > 0 && sorted[at - 1].start > e.start
      invariant 0 <= at <= |sorted|
      invariant forall k | at <= k < |sorted| :: e.start < sorted[k].start
    {
      at := at - 1;
    }
    assert at > 0 ==> sorted[at - 1] in sorted;
    assert forall k | 0 <= k < at :: sorted[k].start < e.start;
    r := sorted[..at] + [e] + sorted[at..];
    assert forall f :: f in sorted <==> f in sorted[..at] || f in sorted[at..];
  }

  lemma {:induction false} InPieces<M>(slots: seq<TextSlot<M>>, reps: map<int, string>, c: nat, e: Piece)
    requires c <= |slots|
    ensures e in PiecesTo(slots, reps, c) <==> exists i | 0 <= i < c && i in reps :: e == EditOf(slots[i], reps[i])
  {
    hide Quoted;
    if c > 0 { InPieces(slots, reps, c - 1, e); }
  }

  function EditOf<M>(slot: TextSlot<M>, text: string): Piece {
    Piece(slot.start, slot.end, Quoted(text))
  }

  /**
   All untouched bytes are copied, the map's iteration order does not matter, no edit is ever
   skipped as overlapping, and the length computed before copying is the length of the result.
   */
  method Rewrite<M>(p: Payload<M>, reps: map<int, string>) returns (out: string, capacity: int)
    requires SlotsFit(p)
    ensures out == Rewritten(p, reps) && capacity == |out|
  {
    if reps == map[] || p.raw == "" {
      NoEdit(p, reps);
      return p.raw, |p.raw|;
    }
    var edits := CollectEdits(p.slots, reps);
    ghost var pieces := Ordered(p, reps);
    InOrdered(p, reps);
    hide Ordered, EditOf;
    assert forall e :: e in pieces <==> e in edits;
    assert pieces != [] ==> pieces[0] in pieces;
    if edits == {} {
      SpliceNothing(p.raw);
      return p.raw, |p.raw|;
    }
    hide Splice;
    var sorted := SortByStart(edits);
    SortedUnique(sorted, pieces);
    out, capacity := CopyEdits(p.raw, sorted);
  }

  lemma InOrdered<M>(p: Payload<M>, reps: map<int, string>)
    requires SlotsFit(p)
    ensures forall e ::
              e in Ordered(p, reps) <==> exists i | 0 <= i < |p.slots| && i in reps :: e == EditOf(p.slots[i], reps[i])
    ensures forall e, f | e in Ordered(p, reps) && f in Ordered(p, reps) && e != f :: e.start != f.start
  {
    hide PiecesTo, Quoted, Sorted;
    forall e ensures e in PiecesTo(p.slots, reps, |p.slots|)
                     <==> exists i | 0 <= i < |p.slots| && i in reps :: e == EditOf(p.slots[i], reps[i])
    {
      InPieces(p.slots, reps, |p.slots|, e);
    }
    var ps := Ordered(p, reps);
    forall e, f | e in ps && f in ps && e != f ensures e.start != f.start {
      var i :| 0 <= i < |ps| && ps[i] == e;
      var k :| 0 <= k < |ps| && ps[k] == f;
    }
  }

  /** The edits for the map's entries, which come in an unspecified order. */
  method CollectEdits<M>(slots: seq<TextSlot<M>>, reps: map<int, string>) returns (edits: set<Piece>)
    ensures forall e :: e in edits <==> exists i | 0 <= i < |slots| && i in reps :: e == EditOf(slots[i], reps[i])
  {
    edits := {};
    var keys := reps.Keys;
    while keys != {}
      invariant keys <= reps.Keys
      invariant forall e :: e in edits <==>
        exists i | 0 <= i < |slots| && i in reps && i !in keys :: e == EditOf(slots[i], reps[i])
      decreases |keys|
    {
      ghost var some := Pick(keys);
      var index :| index in keys;
      keys := keys - {index};
      if 0 <= index < |slots| { edits := edits + {EditOf(slots[index], reps[index])}; }
    }
  }

  method CopyEdits(raw: string, edits: seq<Piece>) returns (out: string, capacity: int)
    requires InOrder(edits, |raw|)
    ensures out == Splice(raw, edits) && capacity == |out|
  {
    var valid := [];
    valid, capacity := KeepFitting(raw, edits);
    hide Splice, InOrder;
    out := "";
    var previousEnd := 0;
    CopyNone(raw);
    for i := 0 to |valid|
      invariant previousEnd == if i == 0 then 0 else edits[i - 1].end
      invariant Copied(raw, edits[..i], previousEnd, out)
    {
      CopyOne(raw, edits, i, previousEnd, out);
      out := out + raw[previousEnd..valid[i].start] + valid[i].text;
      previousEnd := valid[i].end;
    }
    assert edits[..|edits|] == edits;
    CopyRest(raw, edits, previousEnd, out);
    out := out + raw[previousEnd..];
    GrownIsLength(raw, edits);
  }

  /** The edits ps have been copied and everything up to position from is out. */
  predicate Copied(raw: string, ps: seq<Piece>, from: nat, out: string) {
    from <= |raw| && InOrder(ps, from) && out == Splice(raw[..from], ps)
  }

  lemma CopyNone(raw: string)
    ensures Copied(raw, [], 0, "")
  {
  }

  lemma CopyOne(raw: string, edits: seq<Piece>, i: nat, from: nat, out: string)
    requires i < |edits| && InOrder(edits, |raw|) && Copied(raw, edits[..i], from, out)
    requires from == if i == 0 then 0 else edits[i - 1].end
    ensures from <= edits[i].start <= edits[i].end <= |raw|
    ensures Copied(raw, edits[..i + 1], edits[i].end, out + raw[from..edits[i].start] + edits[i].text)
  {
    var e, ps := edits[i], edits[..i];
    var qs := edits[..i + 1];
    assert qs[..|qs| - 1] == ps && qs[|qs| - 1] == e;
    assert raw[..e.end][..e.start] == raw[..e.start] && raw[..e.end][e.end..] == "";
    SpliceTail(raw[..from], raw[from..e.start], ps);
    assert raw[..from] + raw[from..e.start] == raw[..e.start];
  }

  lemma CopyRest(raw: string, edits: seq<Piece>, from: nat, out: string)
    requires Copied(raw, edits, from, out)
    ensures InOrder(edits, |raw|) && out + raw[from..] == Splice(raw, edits)
  {
    hide Splice;
    SpliceTail(raw[..from], raw[from..], edits);
    assert raw[..from] + raw[from..] == raw;
  }

  lemma SpliceNothing(body: string)
    ensures Splice(body, []) == body
  {
  }

  /** The overlap filter: on the slots of a view it drops nothing. */
  method KeepFitting(raw: string, edits: seq<Piece>) returns (valid: seq<Piece>, outputLength: int)
    requires InOrder(edits, |raw|)
    ensures valid == edits && outputLength == Grown(raw, edits)
  {
    valid, outputLength := [], |raw|;
    var previousEnd := 0;
    for i := 0 to |edits|
      invariant valid == edits[..i] && previousEnd == if i == 0 then 0 else edits[i - 1].end
      invariant outputLength == Grown(raw, edits[..i])
    {
      var current := edits[i];
      if current.start < previousEnd || current.end < current.start || current.end > |raw| { continue; }
      GrownMore(raw, edits[..i], current);
      assert edits[..i + 1] == edits[..i] + [current];
      valid := valid + [current];
      outputLength := outputLength + |current.text| - (current.end - current.start);
      previousEnd := current.end;
    }
    assert edits[..|edits|] == edits;
  }

  lemma GrownMore(raw: string, ps: seq<Piece>, e: Piece)
    ensures Grown(raw, ps + [e]) == Grown(raw, ps) + |e.text| - (e.end - e.start)
  {
    assert (ps + [e])[..|ps + [e]| - 1] == ps;
  }

  /** The length the result should have. */
  function Grown(raw: string, ps: seq<Piece>): int {
    if ps == [] then |raw|
    else var e := ps[|ps| - 1]; Grown(raw, ps[..|ps| - 1]) + |e.text| - (e.end - e.start)
  }

  lemma {:induction false} GrownIsLength(raw: string, ps: seq<Piece>)
    requires InOrder(ps, |raw|)
    ensures Grown(raw, ps) == |Splice(raw, ps)|
    decreases |ps|
  {
    if ps != [] {
      var e := ps[|ps| - 1];
      GrownIsLength(raw[..e.start], ps[..|ps| - 1]);
      GrownShift(raw, raw[..e.start], ps[..|ps| - 1]);
    }
  }

  lemma {:induction false} GrownShift(a: string, b: string, ps: seq<Piece>)
    ensures Grown(a, ps) - |a| == Grown(b, ps) - |b|
    decreases |ps|
  {
    if ps != [] { GrownShift(a, b, ps[..|ps| - 1]); }
  }

  lemma NoEdit<M>(p: Payload<M>, reps: map<int, string>)
    requires SlotsFit(p) && (reps == map[] || p.raw == "")
    ensures Rewritten(p, reps) == p.raw
  {
    if p.slots != [] { SlotsNeedText(p); }
    if reps == map[] { NoPieces(p.slots, |p.slots|); }
  }

  lemma SlotsNeedText<M>(p: Payload<M>)
    requires SlotsFit(p) && p.slots != []
    ensures p.raw != ""
  {
    assert p.slots[0].start < p.slots[0].end <= |p.raw|;
  }
}
