/** Splicing edits that come in any order: the pieces are sorted first. */
module JsonSplice {
  import opened JsonTree
  import opened JsonEdit
  import opened JsonGrow

  predicate ByStart(ps: seq<Piece>) {
    forall i, k | 0 <= i < k < |ps| :: ps[i].start < ps[k].start
  }

  /** The pieces in the order of their starts. */
  function Sorted(ps: seq<Piece>): (r: seq<Piece>)
    ensures forall e :: e in r <==> e in ps
  {
    if ps == [] then [] else
      var r := InsertByStart(Sorted(ps[..|ps| - 1]), ps[|ps| - 1]);
      assert ps == ps[..|ps| - 1] + [ps[|ps| - 1]];
      r
  }

  function InsertByStart(ps: seq<Piece>, e: Piece): (r: seq<Piece>)
    ensures forall f :: f in r <==> f in ps || f == e
  {
    if ps == [] || ps[|ps| - 1].start < e.start then ps + [e]
    else
      assert ps == ps[..|ps| - 1] + [ps[|ps| - 1]];
      InsertByStart(ps[..|ps| - 1], e) + [ps[|ps| - 1]]
  }

  predicate StartsApart(ps: seq<Piece>) { forall i, k | 0 <= i < k < |ps| :: ps[i].start != ps[k].start }

  lemma {:induction false} InsertSorts(ps: seq<Piece>, e: Piece)
    requires ByStart(ps) && forall f | f in ps :: f.start != e.start
    ensures ByStart(InsertByStart(ps, e))
  {
    if ps != [] && ps[|ps| - 1].start >= e.start {
      var front, last := ps[..|ps| - 1], ps[|ps| - 1];
      InsertSorts(front, e);
      var r := InsertByStart(front, e);
      forall f | f in r ensures f.start < last.start {}
    }
  }

  lemma {:induction false} SortedByStart(ps: seq<Piece>)
    requires StartsApart(ps)
    ensures ByStart(Sorted(ps))
  {
    if ps != [] {
      SortedByStart(ps[..|ps| - 1]);
      InsertSorts(Sorted(ps[..|ps| - 1]), ps[|ps| - 1]);
    }
  }

  /** Sorting has one result, whatever order the edits came in. */
  lemma {:induction false} SortedUnique(a: seq<Piece>, b: seq<Piece>)
    requires ByStart(a) && ByStart(b) && forall e :: e in a <==> e in b
    ensures a == b
  {
    assert a != [] ==> a[0] in a && a[0] in b;
    assert b != [] ==> b[0] in b && b[0] in a;
    if a != [] && b != [] {
      assert a[0] == b[0];
      forall e ensures e in a[1..] <==> e in b[1..] {
        InTail(a, e);
        InTail(b, e);
      }
      SortedUnique(a[1..], b[1..]);
      assert a == [a[0]] + a[1..] && b == [b[0]] + b[1..];
    }
  }

  lemma InTail(a: seq<Piece>, e: Piece)
    requires a != [] && ByStart(a)
    ensures e in a[1..] <==> e in a && e != a[0]
  {
    assert a == [a[0]] + a[1..];
  }

  /** No two of the pieces overlap, and none is empty. */
  predicate Disjoint(ps: seq<Piece>, n: nat) {
    && (forall i | 0 <= i < |ps| :: ps[i].start < ps[i].end <= n)
    && (forall i, k | 0 <= i < k < |ps| :: ps[i].end <= ps[k].start || ps[k].end <= ps[i].start)
  }

  lemma SortedInOrder(ps: seq<Piece>, n: nat)
    requires Disjoint(ps, n)
    ensures ByStart(Sorted(ps)) && InOrder(Sorted(ps), n) && forall q | q in Sorted(ps) :: q.start < q.end
  {
    SortedByStart(ps);
    var r := Sorted(ps);
    hide Sorted;
    forall i | 0 <= i < |r| ensures r[i].start < r[i].end <= n { assert r[i] in ps; }
    forall i, k | 0 <= i < k < |r| ensures r[i].end <= r[k].start {
      assert r[i] in ps && r[k] in ps;
    }
  }

  /* ---------- the same edits in the order of the text ---------- */

  lemma {:induction false} LtTrans(p: Path, q: Path, r: Path)
    requires Lt(p, q) && Lt(q, r)
    ensures Lt(p, r)
    decreases |p|
  {
    if p[0] == q[0] == r[0] { LtTrans(p[1..], q[1..], r[1..]); }
  }

  function InsertEdit(es: seq<Edit>, e: Edit): (r: seq<Edit>)
    ensures forall f :: f in r <==> f in es || f == e
  {
    if es == [] || Lt(es[|es| - 1].path, e.path) then es + [e]
    else
      assert es == es[..|es| - 1] + [es[|es| - 1]];
      InsertEdit(es[..|es| - 1], e) + [es[|es| - 1]]
  }

  /** Two last edits can change places. */
  lemma SwapLast(j: Json, es: seq<Edit>, e: Edit, f: Edit)
    requires EditsFit(j, es + [e] + [f])
    ensures EditsFit(j, es + [f] + [e]) && PutAll(j, es + [f] + [e]) == PutAll(j, es + [e] + [f])
    ensures EditsFit(j, es + [e]) && EditsFit(Put(j, f.path, f.value), es + [e])
    ensures PutAll(j, es + [e] + [f]) == PutAll(Put(j, f.path, f.value), es + [e])
  {
    hide PutAll, HasPath, Put, Lt;
    var a, b := es + [e] + [f], es + [f] + [e];
    assert a[..|es|] == es && a[|es|] == e && a[|es| + 1] == f;
    assert EditsFit(j, b) by { SwapFit(j, es, e, f); }
    PrefixFit(j, es + [e], f);
    PutAllLast(j, es + [e], f);
    PutAllLast(j, es + [f], e);
    PutAllLast(Put(j, f.path, f.value), es, e);
    PutAllLast(Put(j, e.path, e.value), es, f);
    PutCommutes(j, e.path, e.value, f.path, f.value);
  }

  lemma SwapFit(j: Json, es: seq<Edit>, e: Edit, f: Edit)
    requires EditsFit(j, es + [e] + [f])
    ensures EditsFit(j, es + [f] + [e]) && HasPath(j, e.path) && HasPath(j, f.path) && Apart(e.path, f.path)
  {
    hide HasPath, Lt;
    var a, b := es + [e] + [f], es + [f] + [e];
    var n := |es|;
    forall i | 0 <= i < n + 2 ensures HasPath(j, b[i].path) {
      assert b[i] == a[if i < n then i else 2 * n + 1 - i];
    }
    forall i, k | 0 <= i < k < n + 2 ensures Apart(b[i].path, b[k].path) {
      assert b[i] == a[if i < n then i else 2 * n + 1 - i];
      assert b[k] == a[if k < n then k else 2 * n + 1 - k];
    }
    assert a[n] == e && a[n + 1] == f;
  }

  lemma PrefixFit(j: Json, es: seq<Edit>, e: Edit)
    requires EditsFit(j, es + [e])
    ensures EditsFit(j, es)
  {
    hide HasPath, Lt;
    var a := es + [e];
    assert forall i | 0 <= i < |es| :: a[i] == es[i];
  }

  lemma PutAllLast(j: Json, es: seq<Edit>, e: Edit)
    requires EditsFit(j, es + [e])
    ensures HasPath(j, e.path) && EditsFit(Put(j, e.path, e.value), es)
    ensures PutAll(j, es + [e]) == PutAll(Put(j, e.path, e.value), es)
  {
    var a := es + [e];
    assert a[..|a| - 1] == es && a[|a| - 1] == e;
    EditsFitPut(j, a);
    hide HasPath, Put;
  }

  lemma {:induction false} InsertPut(j: Json, es: seq<Edit>, e: Edit)
    requires EditsFit(j, es + [e]) && EditsInOrder(es)
    ensures var r := InsertEdit(es, e);
            EditsFit(j, r) && EditsInOrder(r) && PutAll(j, r) == PutAll(j, es + [e])
    decreases |es|
  {
    hide PutAll, HasPath, Put;
    var all := es + [e];
    assert forall i | 0 <= i < |es| :: all[i] == es[i];
    assert all[|es|] == e;
    if es == [] {
    } else if Lt(es[|es| - 1].path, e.path) {
      forall i | 0 <= i < |es| ensures Lt(es[i].path, e.path) {
        if i < |es| - 1 { LtTrans(es[i].path, es[|es| - 1].path, e.path); }
      }
    } else {
      var front, last := es[..|es| - 1], es[|es| - 1];
      assert es == front + [last];
      assert Lt(e.path, last.path);
      hide Lt;
      SwapLast(j, front, last, e);
      SwapLast(j, front, e, last);
      InsertPut(Put(j, last.path, last.value), front, e);
      InsertLast(j, front, e, last);
    }
  }

  lemma InsertLast(j: Json, front: seq<Edit>, e: Edit, last: Edit)
    requires EditsFit(j, front + [e] + [last]) && EditsInOrder(front + [last]) && Lt(e.path, last.path)
    requires HasPath(j, last.path) && EditsInOrder(InsertEdit(front, e))
    requires EditsFit(Put(j, last.path, last.value), InsertEdit(front, e))
    ensures var r := InsertEdit(front, e) + [last];
            && EditsFit(j, r) && EditsInOrder(r)
            && PutAll(j, r) == PutAll(Put(j, last.path, last.value), InsertEdit(front, e))
  {
    hide PutAll, HasPath, Put, Lt;
    var r0 := InsertEdit(front, e);
    var all, both := front + [e] + [last], front + [last];
    assert forall i | 0 <= i < |front| :: all[i] == front[i] == both[i];
    assert all[|front|] == e && both[|front|] == last;
    forall f | f in r0 ensures HasPath(j, f.path) && Lt(f.path, last.path) {
      if f != e {
        var i :| 0 <= i < |front| && front[i] == f;
        assert all[i] == f && both[i] == f;
      }
    }
    var r := r0 + [last];
    forall i | 0 <= i < |r0| ensures r[i] in r0 && HasPath(j, r[i].path) && Lt(r[i].path, last.path) {}
    PutAllLast(j, r0, last);
  }

  /** Every order of the edits has the same outcome as the order of the text. */
  lemma {:induction false} InTextOrder(j: Json, es: seq<Edit>) returns (r: seq<Edit>)
    requires EditsFit(j, es)
    ensures EditsFit(j, r) && EditsInOrder(r) && PutAll(j, r) == PutAll(j, es)
    ensures forall e :: e in r <==> e in es
    decreases |es|
  {
    hide PutAll, HasPath, Put, Lt;
    if es == [] { return []; }
    var front, last := es[..|es| - 1], es[|es| - 1];
    assert es == front + [last];
    PutAllLast(j, front, last);
    var rest := InTextOrder(Put(j, last.path, last.value), front);
    LastFits(j, front, last, rest);
    PutAllLast(j, rest, last);
    InsertPut(j, rest, last);
    r := InsertEdit(rest, last);
  }

  lemma LastFits(j: Json, front: seq<Edit>, last: Edit, rest: seq<Edit>)
    requires EditsFit(j, front + [last]) && EditsInOrder(rest) && forall e :: e in rest <==> e in front
    ensures EditsFit(j, rest + [last])
  {
    hide HasPath, Lt;
    var a, b := front + [last], rest + [last];
    assert a[|front|] == last;
    forall e | e in rest ensures HasPath(j, e.path) && Apart(e.path, last.path) {
      var i :| 0 <= i < |front| && front[i] == e;
      assert a[i] == e;
    }
    forall i | 0 <= i < |rest| ensures b[i] == rest[i] && b[i] in rest {}
  }

  /* ---------- splicing pieces that come in any order ---------- */

  /** Strings take up text, so separate ones start at different places. */
  predicate OfStrings(j: Json, es: seq<Edit>) {
    forall e | e in es :: HasPath(j, e.path) && At(j, e.path).Str?
  }

  /** Sorting the pieces of separate strings and splicing them prints the edited tree. */
  lemma SplicedInAnyOrder(d: Doc, es: seq<Edit>)
    requires EditsFit(d.root, es) && OfStrings(d.root, es)
    ensures InOrder(Sorted(Pieces(d, es)), |PrintDoc(d)|)
    ensures Splice(PrintDoc(d), Sorted(Pieces(d, es))) == PrintDoc(d.(root := PutAll(d.root, es)))
  {
    hide PutAll, HasPath, At, Lt, Print, PrintDoc, Splice, PieceOf;
    var r := InTextOrder(d.root, es);
    SpliceIsPutAll(d, r);
    StartsInOrder(d, r);
    PiecesStartApart(d, es);
    SortedByStart(Pieces(d, es));
    SamePiecesIn(d, es, r);
    SortedUnique(Sorted(Pieces(d, es)), Pieces(d, r));
  }

  lemma StringPiece(d: Doc, e: Edit)
    requires HasPath(d.root, e.path) && At(d.root, e.path).Str?
    ensures PieceOf(d, e).start < PieceOf(d, e).end
  {
    hide HasPath, At, Left;
  }

  lemma StartsInOrder(d: Doc, es: seq<Edit>)
    requires EditsFit(d.root, es) && EditsInOrder(es) && OfStrings(d.root, es)
    ensures ByStart(Pieces(d, es))
  {
    hide HasPath, At, Lt, Print, Left, PrintDoc;
    PiecesInOrder(d, es);
    forall i | 0 <= i < |es| ensures Pieces(d, es)[i].start < Pieces(d, es)[i].end {
      assert es[i] in es;
      StringPiece(d, es[i]);
    }
    hide Pieces;
    forall i, k | 0 <= i < k < |es| ensures Pieces(d, es)[i].start < Pieces(d, es)[k].start {
      assert Pieces(d, es)[i].end <= Pieces(d, es)[k].start;
    }
  }

  lemma PiecesStartApart(d: Doc, es: seq<Edit>)
    requires EditsFit(d.root, es) && OfStrings(d.root, es)
    ensures StartsApart(Pieces(d, es))
  {
    hide HasPath, At, Lt, Print, Left;
    forall i, k | 0 <= i < k < |es| ensures PieceOf(d, es[i]).start != PieceOf(d, es[k]).start {
      assert es[i] in es && es[k] in es;
      StringPiece(d, es[i]);
      StringPiece(d, es[k]);
      if Lt(es[i].path, es[k].path) {
        SpanOrder(d.root, es[i].path, es[k].path);
      } else {
        SpanOrder(d.root, es[k].path, es[i].path);
      }
    }
  }

  lemma SamePiecesIn(d: Doc, es: seq<Edit>, fs: seq<Edit>)
    requires EditsFit(d.root, es) && EditsFit(d.root, fs) && forall e :: e in es <==> e in fs
    ensures forall p :: p in Pieces(d, es) <==> p in Pieces(d, fs)
  {
    hide HasPath, PieceOf, Lt;
    forall p ensures p in Pieces(d, es) <==> p in Pieces(d, fs) {
      PieceIn(d, es, fs, p);
      PieceIn(d, fs, es, p);
    }
  }

  lemma PieceIn(d: Doc, es: seq<Edit>, fs: seq<Edit>, p: Piece)
    requires EditsFit(d.root, es) && EditsFit(d.root, fs) && forall e :: e in es ==> e in fs
    ensures p in Pieces(d, es) ==> p in Pieces(d, fs)
  {
    hide HasPath, PieceOf, Lt;
    if p in Pieces(d, es) {
      var i :| 0 <= i < |es| && Pieces(d, es)[i] == p;
      assert es[i] in fs;
      var k :| 0 <= k < |fs| && fs[k] == es[i];
      assert Pieces(d, fs)[k] == p;
    }
  }
}
