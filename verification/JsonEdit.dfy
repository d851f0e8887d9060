/**
 Editing a document by byte span. A path addresses one value of the tree; Left and Right are
 the text around it. Replacing spans in the text is the same as replacing values in the tree.
 */
module JsonEdit {
  import opened JsonTree

  type Path = seq<nat>

  predicate HasPath(j: Json, p: Path)
    decreases |p|
  {
    p == [] || (p[0] < |Items(j)| && HasPath(Items(j)[p[0]].value, p[1..]))
  }

  function At(j: Json, p: Path): Json
    requires HasPath(j, p)
    decreases |p|
  {
    if p == [] then j else At(Items(j)[p[0]].value, p[1..])
  }

  function WithItems(j: Json, items: seq<Elem>): Json
    requires j.Arr? || j.Obj?
  {
    if j.Arr? then Arr(items, j.gap) else Obj(items, j.gap)
  }

  /** j with the value of its k-th item replaced. */
  function SetChild(j: Json, k: nat, v: Json): (r: Json)
    requires k < |Items(j)|
  {
    WithItems(j, j.items[k := j.items[k].(value := v)])
  }

  function Put(j: Json, p: Path, v: Json): Json
    requires HasPath(j, p)
    decreases |p|
  {
    if p == [] then v else SetChild(j, p[0], Put(Items(j)[p[0]].value, p[1..], v))
  }

  /** The items before the k-th, each with the comma after it. */
  function Before(es: seq<Elem>, k: nat): string
    requires k < |es|
  {
    if k == 0 then "" else PrintElem(es[0]) + "," + Before(es[1..], k - 1)
  }

  function Left(j: Json, p: Path): string
    requires HasPath(j, p)
    decreases |p|
  {
    if p == [] then ""
    else
      var es := Items(j);
      Open(j) + Before(es, p[0]) + Head(es[p[0]]) + Left(es[p[0]].value, p[1..])
  }

  function Right(j: Json, p: Path): string
    requires HasPath(j, p)
    decreases |p|
  {
    if p == [] then ""
    else
      var es := Items(j);
      Right(es[p[0]].value, p[1..]) + es[p[0]].after + PrintMore(es[p[0] + 1..]) + Close(j)
  }

  lemma {:induction false} ItemsSplit(es: seq<Elem>, k: nat)
    requires k < |es|
    ensures PrintItems(es) == Before(es, k) + PrintElem(es[k]) + PrintMore(es[k + 1..])
    decreases k
  {
    hide PrintElem;
    if k > 0 {
      ItemsSplit(es[1..], k - 1);
      assert es[1..][k - 1 + 1..] == es[k + 1..];
      assert PrintMore(es[1..]) == "," + PrintItems(es[1..]);
    }
  }

  /** The text of a document is the text around a value and the text of that value. */
  lemma {:induction false} PrintAt(j: Json, p: Path)
    requires HasPath(j, p)
    ensures Print(j) == Left(j, p) + Print(At(j, p)) + Right(j, p)
    decreases |p|
  {
    if p != [] {
      hide Print, PrintItems, PrintElem, PrintMore, Before, Head, At, Left, Right;
      var es := Items(j);
      var e := es[p[0]];
      Descend(j, p);
      ItemsSplit(es, p[0]);
      PrintAt(e.value, p[1..]);
      PrintWhole(j);
      PrintStep(Open(j), Before(es, p[0]), e, PrintMore(es[p[0] + 1..]), Close(j),
                Left(e.value, p[1..]), Print(At(e.value, p[1..])), Right(e.value, p[1..]));
    }
  }

  lemma Descend(j: Json, p: Path)
    requires HasPath(j, p) && p != []
    ensures var es, k := Items(j), p[0];
            var v := es[k].value;
            && At(j, p) == At(v, p[1..])
            && Left(j, p) == Open(j) + Before(es, k) + Head(es[k]) + Left(v, p[1..])
            && Right(j, p) == Right(v, p[1..]) + es[k].after + PrintMore(es[k + 1..]) + Close(j)
  {
    hide PrintElem, PrintMore, Before, Head;
  }

  lemma PrintWhole(j: Json)
    requires Items(j) != []
    ensures Print(j) == Open(j) + PrintItems(Items(j)) + Close(j)
  {
    hide PrintItems;
  }

  lemma PrintStep(o: string, b: string, e: Elem, m: string, c: string, l: string, v: string, r: string)
    requires Print(e.value) == l + v + r
    ensures o + (b + PrintElem(e) + m) + c == (o + b + Head(e) + l) + v + (r + e.after + m + c)
  {
    hide Print, Head;
  }

  lemma {:induction false} SameBefore(es: seq<Elem>, fs: seq<Elem>, i: nat)
    requires i < |es| && i < |fs| && es[..i] == fs[..i]
    ensures Before(es, i) == Before(fs, i)
    decreases i
  {
    hide PrintElem;
    if i > 0 {
      assert es[0] == es[..i][0] == fs[..i][0] == fs[0];
      assert es[1..][..i - 1] == es[..i][1..] && fs[1..][..i - 1] == fs[..i][1..];
      SameBefore(es[1..], fs[1..], i - 1);
    }
  }

  lemma {:induction false} PutAt(j: Json, p: Path, v: Json)
    requires HasPath(j, p)
    ensures HasPath(Put(j, p, v), p) && At(Put(j, p, v), p) == v
    ensures Left(Put(j, p, v), p) == Left(j, p) && Right(Put(j, p, v), p) == Right(j, p)
    decreases |p|
  {
    if p != [] {
      hide Print, PrintElem, PrintMore, Head;
      var k := p[0];
      var es := Items(j);
      var w := Put(es[k].value, p[1..], v);
      var fs := es[k := es[k].(value := w)];
      PutAt(es[k].value, p[1..], v);
      assert Items(Put(j, p, v)) == fs && fs[k + 1..] == es[k + 1..];
      SameBefore(es, fs, k);
      SameHead(es[k], fs[k]);
    }
  }

  lemma SameHead(a: Elem, b: Elem)
    requires a.before == b.before && a.key == b.key
    ensures Head(a) == Head(b)
  {
  }

  lemma {:induction false} PutWf(j: Json, p: Path, v: Json)
    requires HasPath(j, p) && Wf(j) && Wf(v)
    ensures Wf(Put(j, p, v))
    decreases |p|
  {
    if p != [] {
      assert WfElem(Items(j)[p[0]], j.Obj?);
      PutWf(Items(j)[p[0]].value, p[1..], v);
    }
  }

  /** p comes before q in the text, and neither contains the other. */
  predicate Lt(p: Path, q: Path) {
    p != [] && q != [] && (p[0] < q[0] || (p[0] == q[0] && Lt(p[1..], q[1..])))
  }

  /** Neither path leads into the other. */
  predicate Apart(p: Path, q: Path) { Lt(p, q) || Lt(q, p) }

  lemma {:induction false} PutOther(j: Json, p: Path, q: Path, v: Json)
    requires HasPath(j, p) && HasPath(j, q) && Apart(p, q)
    ensures HasPath(Put(j, q, v), p) && At(Put(j, q, v), p) == At(j, p)
    ensures Lt(p, q) ==> Left(Put(j, q, v), p) == Left(j, p)
    decreases |p|
  {
    hide Print, PrintElem, PrintMore, Head;
    var k, i := q[0], p[0];
    var es := Items(j);
    var w := Put(es[k].value, q[1..], v);
    var fs := es[k := es[k].(value := w)];
    assert Items(Put(j, q, v)) == fs;
    if i <= k { SameBefore(es, fs, i); }
    if k == i {
      PutOther(es[k].value, p[1..], q[1..], v);
      SameHead(es[k], fs[k]);
    }
  }

  lemma {:induction false} BeforeGrows(es: seq<Elem>, i: nat, k: nat)
    requires i < k < |es|
    ensures |Before(es, i)| + |PrintElem(es[i])| < |Before(es, k)|
    decreases i
  {
    hide PrintElem;
    if i > 0 { BeforeGrows(es[1..], i - 1, k - 1); }
  }

  /** Spans of separate values come in document order and do not overlap. */
  lemma {:induction false} SpanOrder(j: Json, p: Path, q: Path)
    requires HasPath(j, p) && HasPath(j, q) && Lt(p, q)
    ensures |Left(j, p)| + |Print(At(j, p))| <= |Left(j, q)|
    decreases |p|
  {
    var es := Items(j);
    var k, i := q[0], p[0];
    if i == k {
      SpanOrder(es[k].value, p[1..], q[1..]);
    } else {
      BeforeGrows(es, i, k);
      PrintAt(es[i].value, p[1..]);
    }
  }

  /* ---------- splicing ---------- */

  datatype Piece = Piece(start: nat, end: nat, text: string)
  datatype Edit = Edit(path: Path, value: Json)

  predicate InOrder(ps: seq<Piece>, n: nat) {
    && (forall i | 0 <= i < |ps| :: ps[i].start <= ps[i].end <= n)
    && (forall i, k | 0 <= i < k < |ps| :: ps[i].end <= ps[k].start)
  }

  /** body with each span replaced by its piece's text. */
  function Splice(body: string, ps: seq<Piece>): string
    requires InOrder(ps, |body|)
    decreases |ps|
  {
    if ps == [] then body
    else
      var e := ps[|ps| - 1];
      Splice(body[..e.start], ps[..|ps| - 1]) + e.text + body[e.end..]
  }

  lemma {:induction false} SpliceTail(body: string, more: string, ps: seq<Piece>)
    requires InOrder(ps, |body|)
    ensures InOrder(ps, |body + more|) && Splice(body + more, ps) == Splice(body, ps) + more
  {
    if ps != [] {
      var e := ps[|ps| - 1];
      assert (body + more)[..e.start] == body[..e.start];
      assert (body + more)[e.end..] == body[e.end..] + more;
    }
  }

  /** Edits of values of the tree, none inside another. */
  predicate EditsFit(j: Json, es: seq<Edit>) {
    && (forall i | 0 <= i < |es| :: HasPath(j, es[i].path))
    && (forall i, k | 0 <= i < k < |es| :: Apart(es[i].path, es[k].path))
  }

  /** In the order of the text. */
  predicate EditsInOrder(es: seq<Edit>) { forall i, k | 0 <= i < k < |es| :: Lt(es[i].path, es[k].path) }

  /** The tree with every edited value replaced. */
  function PutAll(j: Json, es: seq<Edit>): Json
    requires EditsFit(j, es)
    decreases |es|
  {
    if es == [] then j
    else
      var e := es[|es| - 1];
      EditsFitPut(j, es);
      PutAll(Put(j, e.path, e.value), es[..|es| - 1])
  }

  lemma EditsFitPut(j: Json, es: seq<Edit>)
    requires EditsFit(j, es) && es != []
    ensures EditsFit(Put(j, es[|es| - 1].path, es[|es| - 1].value), es[..|es| - 1])
  {
    var e := es[|es| - 1];
    forall i | 0 <= i < |es| - 1 ensures HasPath(Put(j, e.path, e.value), es[i].path) {
      PutOther(j, es[i].path, e.path, e.value);
    }
  }

  function PieceOf(d: Doc, e: Edit): Piece
    requires HasPath(d.root, e.path)
  {
    var start := |d.lead| + |Left(d.root, e.path)|;
    Piece(start, start + |Print(At(d.root, e.path))|, Print(e.value))
  }

  function Pieces(d: Doc, es: seq<Edit>): (ps: seq<Piece>)
    requires EditsFit(d.root, es)
    ensures |ps| == |es|
  {
    seq(|es|, i requires 0 <= i < |es| => PieceOf(d, es[i]))
  }

  lemma PiecesInOrder(d: Doc, es: seq<Edit>)
    requires EditsFit(d.root, es) && EditsInOrder(es)
    ensures InOrder(Pieces(d, es), |PrintDoc(d)|)
  {
    hide Print, Left, Lt;
    forall i | 0 <= i < |es| ensures PieceOf(d, es[i]).end <= |PrintDoc(d)| {
      PrintAt(d.root, es[i].path);
    }
    forall i, k | 0 <= i < k < |es| ensures PieceOf(d, es[i]).end <= PieceOf(d, es[k]).start {
      SpanOrder(d.root, es[i].path, es[k].path);
    }
  }

  /** One replaced value: the text before and after it is kept. */
  lemma PrintPut(d: Doc, e: Edit)
    requires HasPath(d.root, e.path)
    ensures var p := PieceOf(d, e);
            && p.start <= p.end <= |PrintDoc(d)|
            && PrintDoc(d)[p.start..p.end] == Print(At(d.root, e.path))
            && PrintDoc(d.(root := Put(d.root, e.path, e.value)))
               == PrintDoc(d)[..p.start] + p.text + PrintDoc(d)[p.end..]
  {
    hide Print, Left, Right, At, Put, HasPath;
    var p := PieceOf(d, e);
    PrintAt(d.root, e.path);
    PutAt(d.root, e.path, e.value);
    var j := Put(d.root, e.path, e.value);
    PrintAt(j, e.path);
    assert PrintDoc(d)[..p.start] == d.lead + Left(d.root, e.path);
    assert PrintDoc(d)[p.end..] == Right(d.root, e.path) + d.trail;
  }

  /** The last piece can be put in first. */
  lemma SpliceLast(body: string, ps: seq<Piece>)
    requires InOrder(ps, |body|) && ps != []
    ensures var p := ps[|ps| - 1];
            var next := body[..p.start] + (p.text + body[p.end..]);
            && InOrder(ps[..|ps| - 1], |next|)
            && Splice(body, ps) == Splice(next, ps[..|ps| - 1])
  {
    var p := ps[|ps| - 1];
    SpliceTail(body[..p.start], p.text + body[p.end..], ps[..|ps| - 1]);
  }

  lemma SpliceStep(d: Doc, es: seq<Edit>)
    requires EditsFit(d.root, es) && EditsInOrder(es) && es != [] && InOrder(Pieces(d, es), |PrintDoc(d)|)
    ensures var e, init := es[|es| - 1], es[..|es| - 1];
            var d' := d.(root := Put(d.root, e.path, e.value));
            && EditsFit(d'.root, init) && EditsInOrder(init)
            && InOrder(Pieces(d', init), |PrintDoc(d')|)
            && Splice(PrintDoc(d), Pieces(d, es)) == Splice(PrintDoc(d'), Pieces(d', init))
  {
    hide Splice, Print, PrintDoc, PieceOf, Put, HasPath, Lt;
    var e := es[|es| - 1];
    PrintPut(d, e);
    SamePieces(d, es);
    SpliceLast(PrintDoc(d), Pieces(d, es));
    assert Pieces(d, es)[|es| - 1] == PieceOf(d, e);
    var p := PieceOf(d, e);
    assert PrintDoc(d)[..p.start] + p.text + PrintDoc(d)[p.end..]
        == PrintDoc(d)[..p.start] + (p.text + PrintDoc(d)[p.end..]);
  }

  /** Splicing the printed values into their spans prints the edited tree. */
  lemma {:induction false} SpliceIsPutAll(d: Doc, es: seq<Edit>)
    requires EditsFit(d.root, es) && EditsInOrder(es)
    ensures InOrder(Pieces(d, es), |PrintDoc(d)|)
    ensures Splice(PrintDoc(d), Pieces(d, es)) == PrintDoc(d.(root := PutAll(d.root, es)))
    decreases |es|
  {
    hide Splice, Print, PrintDoc, Pieces, PieceOf, Put, HasPath, Lt, InOrder;
    PiecesInOrder(d, es);
    if es == [] {
      SpliceNone(d);
    } else {
      SpliceStep(d, es);
      SpliceIsPutAll(d.(root := Put(d.root, es[|es| - 1].path, es[|es| - 1].value)), es[..|es| - 1]);
    }
  }

  lemma SpliceNone(d: Doc)
    ensures Pieces(d, []) == [] && Splice(PrintDoc(d), []) == PrintDoc(d)
    ensures d.(root := PutAll(d.root, [])) == d
  {
    hide PrintDoc;
  }

  lemma SamePieces(d: Doc, es: seq<Edit>)
    requires EditsFit(d.root, es) && EditsInOrder(es) && es != []
    ensures var e := es[|es| - 1];
            var j := Put(d.root, e.path, e.value);
            && EditsFit(j, es[..|es| - 1])
            && Pieces(d.(root := j), es[..|es| - 1]) == Pieces(d, es)[..|es| - 1]
  {
    hide Print, Left, At, Put, HasPath, Lt;
    var e := es[|es| - 1];
    var d' := d.(root := Put(d.root, e.path, e.value));
    EditsFitPut(d.root, es);
    forall i | 0 <= i < |es| - 1 ensures PieceOf(d', es[i]) == PieceOf(d, es[i]) {
      PutOther(d.root, es[i].path, e.path, e.value);
    }
  }

  lemma {:induction false} PutAllWf(j: Json, es: seq<Edit>)
    requires EditsFit(j, es) && Wf(j) && forall i | 0 <= i < |es| :: Wf(es[i].value)
    ensures Wf(PutAll(j, es))
    decreases |es|
  {
    if es != [] {
      var e := es[|es| - 1];
      PutWf(j, e.path, e.value);
      EditsFitPut(j, es);
      PutAllWf(Put(j, e.path, e.value), es[..|es| - 1]);
    }
  }
}
