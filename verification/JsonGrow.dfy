/** Inserting text at one position of a document: a longer string, or one more item. */
module JsonGrow {
  import opened JsonTree
  import opened JsonEdit

  function Insert(s: string, at: nat, x: string): string
    requires at <= |s|
  {
    s[..at] + x + s[at..]
  }

  /** j with one more item, at the front or at the end. */
  function Added(j: Json, front: bool, e: Elem): Json
    requires j.Arr? || j.Obj?
  {
    var items :=
      if j.items == [] then [if front then e.(after := e.after + j.gap) else e.(before := j.gap + e.before)]
      else if front then [e] + j.items
      else j.items + [e];
    if j.Arr? then Arr(items, "") else Obj(items, "")
  }

  /** The text written for the new item. */
  function AddText(j: Json, front: bool, e: Elem): string {
    var comma := if j.Arr? && j.items == [] then "" else ",";
    if front then PrintElem(e) + comma else comma + PrintElem(e)
  }

  function AddAt(j: Json, front: bool): nat
    requires j.Arr? || j.Obj?
  {
    if front then 1 else |Print(j)| - 1
  }

  lemma {:induction false} MoreAdded(es: seq<Elem>, e: Elem)
    ensures PrintMore(es + [e]) == PrintMore(es) + ("," + PrintElem(e))
  {
    hide PrintElem;
    if es == [] {
      assert es + [e] == [e];
      assert PrintMore([e]) == "," + PrintElem(e) + PrintMore([e][1..]);
    } else {
      MoreAdded(es[1..], e);
      assert (es + [e])[1..] == es[1..] + [e];
    }
  }

  lemma ItemsAdded(es: seq<Elem>, e: Elem)
    requires es != []
    ensures PrintItems(es + [e]) == PrintItems(es) + ("," + PrintElem(e))
    ensures PrintItems([e] + es) == PrintElem(e) + "," + PrintItems(es)
  {
    hide PrintElem;
    MoreAdded(es[1..], e);
    assert (es + [e])[1..] == es[1..] + [e];
    assert ([e] + es)[1..] == es;
  }

  lemma PrintOne(e: Elem)
    ensures PrintItems([e]) == PrintElem(e)
  {
    hide PrintElem;
    assert [e][1..] == [];
  }

  lemma PrintBody(j: Json)
    requires j.Arr? || j.Obj?
    ensures Print(j) == Open(j) + Body(j.items, j.gap) + Close(j)
  {
    hide PrintItems;
  }

  lemma BodyAdded(j: Json, front: bool, e: Elem)
    requires j.Arr? || (j.Obj? && j.items != [])
    ensures Body(Added(j, front, e).items, "")
            == if front then AddText(j, front, e) + Body(j.items, j.gap)
                 else Body(j.items, j.gap) + AddText(j, front, e)
  {
    if j.items == [] {
      PrintOne(Added(j, front, e).items[0]);
      hide Print;
    } else {
      ItemsAdded(j.items, e);
      hide PrintElem;
    }
  }

  /** Adding an item to the tree is inserting its text beside a bracket. */
  lemma AddedText(j: Json, front: bool, e: Elem)
    requires j.Arr? || (j.Obj? && j.items != [])
    ensures AddAt(j, front) <= |Print(j)|
    ensures Print(Added(j, front, e)) == Insert(Print(j), AddAt(j, front), AddText(j, front, e))
    ensures if front then Print(j)[..1] == Open(j) else Print(j)[|Print(j)| - 1..] == Close(j)
  {
    BodyAdded(j, front, e);
    PrintBody(j);
    var k := Added(j, front, e);
    PrintBody(k);
    hide Print, Body, AddText, Added;
    assert Open(k) == Open(j) && Close(k) == Close(j) && k.gap == "";
    Around(Open(j), Body(j.items, j.gap), Close(j), AddText(j, front, e));
  }

  lemma Around(o: string, b: string, c: string, x: string)
    requires |o| == |c| == 1
    ensures var p := o + b + c;
            && p[..1] == o && p[|p| - 1..] == c
            && Insert(p, 1, x) == o + (x + b) + c && Insert(p, |p| - 1, x) == o + (b + x) + c
  {
    var p := o + b + c;
    assert p[..1] == o && p[1..] == b + c;
    assert p[..|p| - 1] == o + b && p[|p| - 1..] == c;
  }

  lemma AddedWf(j: Json, front: bool, e: Elem)
    requires (j.Arr? || j.Obj?) && Wf(j) && WfElem(e, j.Obj?)
    ensures Wf(Added(j, front, e))
  {
  }

  /** Replacing a value by one with text inserted inserts that text in the document. */
  lemma PutInserts(d: Doc, p: Path, v: Json, at: nat, x: string)
    requires HasPath(d.root, p) && at <= |Print(At(d.root, p))|
    requires Print(v) == Insert(Print(At(d.root, p)), at, x)
    ensures var k := |d.lead| + |Left(d.root, p)|;
            var body := PrintDoc(d);
            && k + |Print(At(d.root, p))| <= |body|
            && body[k..k + |Print(At(d.root, p))|] == Print(At(d.root, p))
            && PrintDoc(d.(root := Put(d.root, p, v))) == Insert(body, k + at, x)
  {
    hide HasPath, At, Print, Left, Put, PrintDoc;
    PrintPut(d, Edit(p, v));
    InsertInside(PrintDoc(d), |d.lead| + |Left(d.root, p)|, Print(At(d.root, p)), at, x);
  }

  lemma InsertInside(body: string, k: nat, v: string, at: nat, x: string)
    requires k + |v| <= |body| && body[k..k + |v|] == v && at <= |v|
    ensures body[..k] + Insert(v, at, x) + body[k + |v|..] == Insert(body, k + at, x)
  {
    assert body[..k + at] == body[..k] + v[..at];
    assert body[k + at..] == v[at..] + body[k + |v|..];
  }

  /* ---------- two edits ---------- */

  lemma {:induction false} PutTwice(j: Json, p: Path, v: Json, w: Json)
    requires HasPath(j, p)
    ensures HasPath(Put(j, p, v), p) && Put(Put(j, p, v), p, w) == Put(j, p, w)
    decreases |p|
  {
    if p != [] {
      var k := p[0];
      PutTwice(j.items[k].value, p[1..], v, w);
      var x := Put(j.items[k].value, p[1..], v);
      var y := Put(j.items[k].value, p[1..], w);
      assert j.items[k := j.items[k].(value := x)][k := j.items[k].(value := y)]
             == j.items[k := j.items[k].(value := y)];
    }
  }

  lemma {:induction false} PutBelow(j: Json, p: Path, q: Path, w: Json)
    requires HasPath(j, p) && HasPath(At(j, p), q)
    ensures HasPath(j, p + q) && At(j, p + q) == At(At(j, p), q)
    ensures Put(j, p + q, w) == Put(j, p, Put(At(j, p), q, w))
    decreases |p|
  {
    if p == [] {
      assert p + q == q;
    } else {
      assert (p + q)[1..] == p[1..] + q;
      PutBelow(j.items[p[0]].value, p[1..], q, w);
    }
  }

  lemma SetTwo(j: Json, a: nat, v: Json, b: nat, w: Json)
    requires a < |Items(j)| && b < |Items(j)|
    ensures Items(SetChild(j, a, v)) == Items(j)[a := Items(j)[a].(value := v)]
    ensures a != b ==> SetChild(SetChild(j, a, v), b, w) == SetChild(SetChild(j, b, w), a, v)
    ensures a == b ==> SetChild(SetChild(j, a, v), b, w) == SetChild(j, b, w)
  {
    var es := Items(j);
    if a != b {
      assert es[a := es[a].(value := v)][b := es[b].(value := w)]
             == es[b := es[b].(value := w)][a := es[a].(value := v)];
    } else {
      assert es[a := es[a].(value := v)][a := es[a].(value := w)] == es[a := es[a].(value := w)];
    }
  }

  lemma PutStep(j: Json, p: Path, v: Json)
    requires HasPath(j, p) && p != []
    ensures p[0] < |Items(j)| && HasPath(Items(j)[p[0]].value, p[1..])
    ensures Put(j, p, v) == SetChild(j, p[0], Put(Items(j)[p[0]].value, p[1..], v))
    ensures At(j, p) == At(Items(j)[p[0]].value, p[1..])
  {
    hide SetChild;
  }

  /** Edits of separate values can be made in either order. */
  lemma {:induction false} PutCommutes(j: Json, p: Path, v: Json, q: Path, w: Json)
    requires HasPath(j, p) && HasPath(j, q) && Apart(p, q)
    ensures HasPath(Put(j, p, v), q) && HasPath(Put(j, q, w), p)
    ensures Put(Put(j, p, v), q, w) == Put(Put(j, q, w), p, v)
    decreases |p|
  {
    PutOther(j, q, p, v);
    PutOther(j, p, q, w);
    var a, b := p[0], q[0];
    PutStep(j, p, v);
    PutStep(j, q, w);
    var x := Put(j.items[a].value, p[1..], v);
    var y := Put(j.items[b].value, q[1..], w);
    PutStep(Put(j, p, v), q, w);
    PutStep(Put(j, q, w), p, v);
    SetTwo(j, a, x, b, y);
    SetTwo(j, b, y, a, x);
    if a == b {
      var s := Put(Put(j.items[a].value, p[1..], v), q[1..], w);
      PutCommutes(j.items[a].value, p[1..], v, q[1..], w);
      SetTwo(j, a, x, a, s);
      SetTwo(j, a, y, a, s);
    }
    hide HasPath, Put, Lt, SetChild;
  }
}
