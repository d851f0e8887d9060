/** A stage is one insertion that keeps the body valid and never splits an escape. */
module PromptInsertion {
  import opened JsonText
  import opened JsonTree
  import opened JsonEdit
  import opened JsonSlots
  import opened JsonGrow
  import opened Markers
  import opened Payloads
  import opened PromptSites
  import opened PromptSpots
  import opened Prompts

  lemma MarkerCut(raw: string, s: Stage)
    requires Fenced(s) && ValidRaw(raw)
    ensures ValidRaw(raw[..Cut(raw, s)]) && ValidRaw(raw[Cut(raw, s)..]) && !OpensLow(raw[Cut(raw, s)..])
  {
    var k := Cut(raw, s);
    if MarkerAt(raw, s).Some? {
      assert raw[k] == raw[k..k + |s.insertBefore.value|][0];
      UnitBoundary(raw, k);
    } else {
      assert raw[..k] == raw && raw[k..] == "";
    }
  }

  lemma OpensLowFirst(x: string, y: string)
    requires ValidRaw(x) && !OpensLow(x) && !OpensLow(y)
    ensures !OpensLow(x + y)
  {
    if x == "" { assert x + y == y; } else { OpensLowConcat(x, y); }
  }

  /** The decoded text: what was there, with the block put in between. */
  lemma FilledText(raw: string, s: Stage)
    requires Fenced(s) && ValidRaw(raw)
    ensures var k := Cut(raw, s);
            && Decode(raw) == Decode(raw[..k]) + Decode(raw[k..])
            && Decode(FilledRaw(raw, s)) == Decode(raw[..k]) + Insertion(raw, s) + Decode(raw[k..])
            && ValidRaw(FilledRaw(raw, s))
  {
    hide Decode, ValidRaw, OpensLow, Encode, Cut, Insertion, Fenced, MarkerAt;
    var k := Cut(raw, s);
    MarkerCut(raw, s);
    DecodeEncode(Insertion(raw, s));
    assert raw == raw[..k] + raw[k..];
    ThreeParts(raw[..k], Encode(Insertion(raw, s)), raw[k..]);
  }

  lemma ThreeParts(a: string, x: string, b: string)
    requires ValidRaw(a) && ValidRaw(x) && ValidRaw(b) && !OpensLow(x) && !OpensLow(b)
    ensures ValidRaw(a + x + b) && Decode(a + x + b) == Decode(a) + Decode(x) + Decode(b)
    ensures Decode(a + b) == Decode(a) + Decode(b)
  {
    hide *;
    assert a + x + b == a + (x + b);
    OpensLowFirst(x, b);
    DecodeConcat(a, b);
    DecodeConcat(x, b);
    DecodeConcat(a, x + b);
    ValidRawConcat(x, b);
    ValidRawConcat(a, x + b);
    assert Decode(a) + (Decode(x) + Decode(b)) == Decode(a) + Decode(x) + Decode(b);
  }

  lemma FilledPrint(raw: string, s: Stage)
    ensures Print(Str(FilledRaw(raw, s))) == Insert(Print(Str(raw)), 1 + Cut(raw, s), Encode(Insertion(raw, s)))
    ensures 1 + Cut(raw, s) < |Print(Str(raw))| == |raw| + 2
    ensures Print(Str(raw))[1 + Cut(raw, s)..] == raw[Cut(raw, s)..] + "\""
  {
    hide Cut, Encode, Insertion;
    var k := Cut(raw, s);
    var p := "\"" + raw + "\"";
    assert p[..1 + k] == "\"" + raw[..k] && p[1 + k..] == raw[k..] + "\"";
  }

  lemma FilledElem(e: Elem, hole: Path, raw: string, named: bool)
    requires WfElem(e, named) && HasPath(e.value, hole) && ValidRaw(raw)
    ensures WfElem(Filled(e, hole, raw), named)
  {
    PutWf(e.value, hole, Str(raw));
    hide Put, HasPath, ValidRaw;
  }

  lemma {:induction false} AtWf(j: Json, p: Path)
    requires Wf(j) && HasPath(j, p)
    ensures Wf(At(j, p))
    decreases |p|
  {
    if p != [] {
      assert WfElem(Items(j)[p[0]], j.Obj?);
      AtWf(Items(j)[p[0]].value, p[1..]);
    }
  }

  /** The value a stage writes at its spot. */
  function NewValue(j: Json, spot: Spot, s: Stage): Json
    requires SpotFits(j, spot)
  {
    match spot
    case Fill(p) => Str(FilledRaw(At(j, p).raw, s))
    case Add(p, front, e, hole) => Added(At(j, p), front, Filled(e, hole, Encode(Block(s))))
  }

  lemma NewValueFits(j: Json, spot: Spot, s: Stage)
    requires SpotFits(j, spot) && Wf(j) && Fenced(s)
    ensures var v, w := At(j, spot.path), NewValue(j, spot, s);
            && Wf(w) && 0 <= OffsetFor(j, spot, s) <= |Print(v)|
            && Print(w) == Insert(Print(v), OffsetFor(j, spot, s), TextFor(j, spot, s))
            && Applied(j, spot, RawFor(j, spot, s)) == Put(j, spot.path, w)
  {
    AtWf(j, spot.path);
    match spot
    case Fill(p) =>
      hide HasPath, At, FilledRaw, Encode, Insertion, ValidRaw, Cut, Print;
      FilledText(At(j, p).raw, s);
      FilledPrint(At(j, p).raw, s);
    case Add(p, front, e, hole) =>
      var raw := Encode(Block(s));
      DecodeEncode(Block(s));
      hide HasPath, At, Encode, Block, ValidRaw, Print, Added, AddText, AddAt;
      FilledElem(e, hole, raw, At(j, p).Obj?);
      hide Filled, WfElem;
      AddedText(At(j, p), front, Filled(e, hole, raw));
      AddedWf(At(j, p), front, Filled(e, hole, raw));
  }

  /** The printed result of a stage is the body with one text inserted, and is a well-formed document. */
  lemma StageInserts(d: Doc, to: Target, s: Stage)
    requires WfDoc(d) && Ready(to, d.root) && Fenced(s)
    ensures 0 <= StageAt(d, to, s) <= |PrintDoc(d)| && WfDoc(StageDoc(d, to, s))
    ensures PrintDoc(StageDoc(d, to, s)) == Insert(PrintDoc(d), StageAt(d, to, s), StageText(d, to, s))
  {
    hide Ready, SpotFits, Applied, RawFor, PrintDoc, Left, OffsetFor, TextFor, SpotAt, Insert, WfDoc, Fenced;
    var spot := SpotAt(to, d.root, s.first);
    SpotHas(d.root, spot);
    SpotInserts(d, spot, s);
  }

  lemma SpotInserts(d: Doc, spot: Spot, s: Stage)
    requires WfDoc(d) && SpotFits(d.root, spot) && HasPath(d.root, spot.path) && Fenced(s)
    ensures var at := |d.lead| + |Left(d.root, spot.path)| + OffsetFor(d.root, spot, s);
            var next := d.(root := Applied(d.root, spot, RawFor(d.root, spot, s)));
            0 <= at <= |PrintDoc(d)| && WfDoc(next)
                && PrintDoc(next) == Insert(PrintDoc(d), at, TextFor(d.root, spot, s))
  {
    hide SpotFits, Applied, RawFor, Print, PrintDoc, Put, At, HasPath, Wf, Left, OffsetFor, TextFor, NewValue, Insert;
    NewValueFits(d.root, spot, s);
    var w := NewValue(d.root, spot, s);
    PutInserts(d, spot.path, w, OffsetFor(d.root, spot, s), TextFor(d.root, spot, s));
    PutWf(d.root, spot.path, w);
  }

  lemma SpotHas(j: Json, spot: Spot)
    requires SpotFits(j, spot)
    ensures HasPath(j, spot.path)
  {
  }

  /** At body level: nothing, or the document of the stage. */
  lemma StageOnBody(d: Doc, to: Target, s: Stage)
    requires WfDoc(d) && Ready(to, d.root) && Fenced(s)
    ensures var body := PrintDoc(d);
            InjectStage(body, to, s)
            == if Contains(body, s.start) || Contains(body, s.end) then body else PrintDoc(StageDoc(d, to, s))
  {
    ParsePrint(d);
    hide Ready, StageDoc, PrintDoc, WfDoc, StageAt, StageText, Insert, Contains, Fenced;
    StageInserts(d, to, s);
  }

  /* ---------- the texts afterwards ---------- */

  lemma AddedTexts(to: Target, j: Json, s: Stage)
    requires Ready(to, j) && Texts(to, j) == []
    ensures var spot := SpotAt(to, j, s.first);
            && spot.Add?
            && Texts(to, Applied(j, spot, RawFor(j, spot, s))) == [Slot(NewPath(j, spot), Block(s), Protocol.PROMPT)]
  {
    NewSpot(to, j, s.first, Encode(Block(s)));
    DecodeEncode(Block(s));
    hide Texts, Applied, NewPath, Block, Encode, Decode, SpotFits, Supported;
  }
}
