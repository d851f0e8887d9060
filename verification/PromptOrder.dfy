/** When the two stages commute, and in what order their blocks stand. */
module PromptOrder {
  import opened Common
  import opened JsonText
  import opened JsonTree
  import opened JsonEdit
  import opened JsonQuery
  import opened JsonGrow
  import opened JsonBuild
  import opened Protocol
  import opened Markers
  import opened Payloads
  import opened PromptSites
  import opened PromptSitesProofs
  import opened PromptSpots
  import opened Prompts
  import opened PromptInsertion
  import opened PromptMarkers
  import opened PromptLaws

  /* ---------- one literal ---------- */

  function Break(raw: string): string { if Decode(raw) != "" then Encode("\n\n") else "" }

  predicate Free(raw: string) { ValidRaw(raw) && IndexOf(raw, PONYTAIL_START).None? }

  lemma PonytailFill(raw: string, p: string)
    ensures FilledRaw(raw, PonytailStage(p)) == raw + Break(raw) + Encode(Block(PonytailStage(p)))
  {
    var b := PonytailStage(p);
    EncodeConcat("\n\n", Block(b));
    hide Encode, Decode, Block;
    assert raw[..|raw|] == raw && raw[|raw|..] == "";
  }

  lemma CavemanFill(raw: string, c: string)
    requires IndexOf(raw, PONYTAIL_START).None?
    ensures FilledRaw(raw, CavemanStage(c)) == raw + Break(raw) + Encode(Block(CavemanStage(c)))
  {
    var a := CavemanStage(c);
    EncodeConcat("\n\n", Block(a));
    hide Encode, Decode, Block, IndexOf;
    assert raw[..|raw|] == raw && raw[|raw|..] == "";
  }

  /** The marker that opens b is the first in a + b. */
  lemma FirstAfter(a: string, b: string, m: string)
    requires IsMarker(m) && !Contains(a, m) && Occurs(b, m, 0)
    ensures IndexOf(a + b, m) == Some(|a|)
  {
    assert (a + b)[|a|..|a| + |m|] == b[0..|m|];
    assert Cuttable(a, b) by { assert b[0] == b[0..|m|][0]; }
    assert Occurs(a + b, m, |a|);
    var k := IndexOf(a + b, m);
    forall i: nat | i < |a| ensures !Occurs(a + b, m, i) {
      if Occurs(a + b, m, i) {
        if i + |m| <= |a| {
          assert a[i..i + |m|] == (a + b)[i..i + |m|];
          Occurring(a, m, i);
        } else {
          CutInside(a, b, m, i);
        }
      }
    }
  }

  lemma BlockOpens(s: Stage)
    requires Fenced(s)
    ensures Occurs(Encode(Block(s)), s.start, 0)
  {
    EncodeInner(s.start);
    assert Block(s) == s.start + ("\n" + s.prompt + "\n" + s.end);
    EncodeConcat(s.start, "\n" + s.prompt + "\n" + s.end);
    hide Encode, Block;
    var rest := Encode("\n" + s.prompt + "\n" + s.end);
    assert (s.start + rest)[0..|s.start|] == s.start;
  }

  lemma NotDecodedEmpty(raw: string, s: Stage)
    requires Fenced(s) && ValidRaw(raw)
    ensures Decode(FilledRaw(raw, s)) != ""
  {
    FilledText(raw, s);
    hide Decode, FilledRaw;
  }

  lemma BreakFree(raw: string)
    requires Free(raw)
    ensures !Contains(raw + Break(raw), PONYTAIL_START)
  {
    EncodedBreaks();
    FourMarkers();
    PlainHasNone("\\n\\n", PONYTAIL_START);
    OccursTag("", PONYTAIL_START, 0);
    hide Encode, Decode, Bracketed;
    if Decode(raw) != "" {
      CutClean(raw, "\\n\\n", PONYTAIL_START);
    } else {
      assert raw + "" == raw;
    }
  }

  lemma BlockThenBreak(s: Stage)
    ensures Encode(Block(s) + "\n\n") == Encode(Block(s)) + Encode("\n\n")
  {
    EncodeConcat(Block(s), "\n\n");
  }

  /** In one literal the two stages give the same result in either order: Caveman first. */
  lemma LiteralCommutes(raw: string, c: string, p: string)
    requires Free(raw)
    ensures var a, b := CavemanStage(c), PonytailStage(p);
            && FilledRaw(FilledRaw(raw, a), b) == FilledRaw(FilledRaw(raw, b), a)
            && FilledRaw(FilledRaw(raw, a), b)
               == raw + Break(raw) + Encode(Block(a)) + Encode("\n\n") + Encode(Block(b))
  {
    var a, b := CavemanStage(c), PonytailStage(p);
    StagesFenced(c, p);
    BlockOpens(b);
    CavemanFill(raw, c);
    PonytailFill(raw, p);
    NotDecodedEmpty(raw, a);
    BreakFree(raw);
    PonytailFill(FilledRaw(raw, a), p);
    var front := raw + Break(raw);
    FirstAfter(front, Encode(Block(b)), PONYTAIL_START);
    BeforeMarker(front, Encode(Block(b)), c);
    hide *;
  }

  lemma BeforeMarker(front: string, block: string, c: string)
    requires IndexOf(front + block, PONYTAIL_START) == Some(|front|)
    ensures FilledRaw(front + block, CavemanStage(c)) == front + Encode(Block(CavemanStage(c))) + Encode("\n\n") + block
  {
    BlockThenBreak(CavemanStage(c));
    hide Encode, Decode, Block, IndexOf;
    var raw := front + block;
    assert raw[..|front|] == front && raw[|front|..] == block;
  }

  /* ---------- one spot ---------- */

  /** Writing the literal of a new item again is adding the item with that literal. */
  lemma AppliedTwice(j: Json, spot: Spot, r: string, w: string)
    requires SpotFits(j, spot) && spot.Add?
    ensures var q := NewPath(j, spot);
            && HasPath(Applied(j, spot, r), q) && At(Applied(j, spot, r), q) == Str(r)
            && Put(Applied(j, spot, r), q, Str(w)) == Applied(j, spot, w)
  {
    var p, a := spot.path, At(j, spot.path);
    var v := Added(a, spot.front, Filled(spot.elem, spot.hole, r));
    var k := if spot.front then 0 else |a.items|;
    assert p + [k] + spot.hole == p + ([k] + spot.hole);
    hide At, Put, HasPath, Added, Filled, WfElem;
    AddedTwice(a, spot.front, spot.elem, spot.hole, r, w);
    PutInside(j, p, v, [k] + spot.hole, Str(w), Added(a, spot.front, Filled(spot.elem, spot.hole, w)));
  }

  lemma PutInside(j: Json, p: Path, v: Json, q: Path, w: Json, u: Json)
    requires HasPath(j, p) && HasPath(v, q) && Put(v, q, w) == u
    ensures HasPath(Put(j, p, v), p + q) && At(Put(j, p, v), p + q) == At(v, q)
    ensures Put(Put(j, p, v), p + q, w) == Put(j, p, u)
  {
    hide *;
    PutAt(j, p, v);
    PutBelow(Put(j, p, v), p, q, w);
    PutTwice(j, p, v, u);
  }

  lemma AddedTwice(a: Json, front: bool, e: Elem, hole: Path, r: string, w: string)
    requires (a.Arr? || a.Obj?) && HasPath(e.value, hole)
    ensures var v, k := Added(a, front, Filled(e, hole, r)), if front then 0 else |a.items|;
            && HasPath(v, [k] + hole) && At(v, [k] + hole) == Str(r)
            && Put(v, [k] + hole, Str(w)) == Added(a, front, Filled(e, hole, w))
  {
    PutTwice(e.value, hole, Str(r), Str(w));
    PutAt(e.value, hole, Str(r));
    var v, k := Added(a, front, Filled(e, hole, r)), if front then 0 else |a.items|;
    assert v.items[k].value == Put(e.value, hole, Str(r));
    hide At, Put, HasPath;
    Deeper(v, k, hole, Str(w));
    AddedSet(a, front, Filled(e, hole, r), Put(e.value, hole, Str(w)));
  }

  lemma AddedSet(a: Json, front: bool, e: Elem, w: Json)
    requires a.Arr? || a.Obj?
    ensures var k := if front then 0 else |a.items|;
            k < |Added(a, front, e).items| && SetChild(Added(a, front, e), k, w) == Added(a, front, e.(value := w))
  {
    var k := if front then 0 else |a.items|;
    var es, f := Added(a, front, e).items, Added(a, front, e.(value := w)).items;
    assert es[k := es[k].(value := w)] == f;
  }

  /* ---------- both stages on a document ---------- */

  ghost predicate TextsFree(to: Target, j: Json) {
    forall i | 0 <= i < |Texts(to, j)| ::
      var p := Texts(to, j)[i].path; HasPath(j, p) && At(j, p).Str? && Free(At(j, p).raw)
  }

  function Both(to: Target, j: Json, s: Stage, t: Stage): Json
    requires Ready(to, j)
  {
    StageReady(to, j, s);
    TextsReady(to, StageRoot(j, to, s));
    StageRoot(StageRoot(j, to, s), to, t)
  }

  /** No text, and more than one array to choose from. */
  predicate Torn(to: Target, j: Json) {
    Texts(to, j) == [] && |Arrays(MainWalk(to, j), j)| >= 2
  }

  /** A second stage on one text changes that text again. */
  lemma SameTextTwice(to: Target, j: Json, s: Stage, t: Stage)
    requires Texts(to, j) != [] && ChosenText(to, j, s) == ChosenText(to, j, t)
    ensures var p := Texts(to, j)[ChosenText(to, j, s)].path;
            && Ready(to, j) && HasPath(j, p) && At(j, p).Str?
            && Both(to, j, s, t) == Put(j, p, Str(FilledRaw(FilledRaw(At(j, p).raw, s), t)))
  {
    FilledTexts(to, j, s);
    StageReady(to, j, s);
    var k := ChosenText(to, j, s);
    var p, next := Texts(to, j)[k].path, StageRoot(j, to, s);
    var raw := FilledRaw(At(j, p).raw, s);
    hide Texts, FilledRaw, HasPath, At, Put, StageRoot, Ready, Decode;
    assert ChosenText(to, next, t) == k;
    FilledTexts(to, next, t);
    PutTwice(j, p, Str(raw), Str(FilledRaw(raw, t)));
    PutAt(j, p, Str(raw));
  }

  /** A second stage on another text. */
  lemma OtherTextThen(to: Target, j: Json, s: Stage, t: Stage)
    requires Texts(to, j) != [] && ChosenText(to, j, s) != ChosenText(to, j, t)
    ensures var p, q := Texts(to, j)[ChosenText(to, j, s)].path, Texts(to, j)[ChosenText(to, j, t)].path;
            && Ready(to, j) && HasPath(j, p) && At(j, p).Str? && HasPath(j, q) && At(j, q).Str? && Apart(p, q)
            && HasPath(Put(j, p, Str(FilledRaw(At(j, p).raw, s))), q)
            && Both(to, j, s, t) == Put(Put(j, p, Str(FilledRaw(At(j, p).raw, s))), q, Str(FilledRaw(At(j, q).raw, t)))
  {
    TextsApart(to, j);
    FilledTexts(to, j, s);
    StageReady(to, j, s);
    var k, n := ChosenText(to, j, s), ChosenText(to, j, t);
    var p, q, next := Texts(to, j)[k].path, Texts(to, j)[n].path, StageRoot(j, to, s);
    hide Texts, FilledRaw, HasPath, At, Put, StageRoot, Ready, Decode, Lt;
    assert ChosenText(to, next, t) == n;
    FilledTexts(to, next, t);
    PutOther(j, q, p, Str(FilledRaw(At(j, p).raw, s)));
  }

  lemma TextsCommute(to: Target, j: Json, c: string, p: string)
    requires Texts(to, j) != [] && TextsFree(to, j)
    ensures var a, b := CavemanStage(c), PonytailStage(p);
            Ready(to, j) && Both(to, j, a, b) == Both(to, j, b, a)
  {
    var a, b := CavemanStage(c), PonytailStage(p);
    hide Texts, FilledRaw, HasPath, At, Put, Ready, Both, Lt, Free, Apart;
    if ChosenText(to, j, a) == ChosenText(to, j, b) {
      SameTextTwice(to, j, a, b);
      SameTextTwice(to, j, b, a);
      LiteralCommutes(At(j, Texts(to, j)[ChosenText(to, j, a)].path).raw, c, p);
    } else {
      OtherTextThen(to, j, a, b);
      OtherTextThen(to, j, b, a);
      var q, r := Texts(to, j)[ChosenText(to, j, a)].path, Texts(to, j)[ChosenText(to, j, b)].path;
      PutCommutes(j, q, Str(FilledRaw(At(j, q).raw, a)), r, Str(FilledRaw(At(j, r).raw, b)));
    }
  }

  /* ---------- no text yet ---------- */

  lemma NewThen(to: Target, j: Json, s: Stage, t: Stage)
    requires Supported(to, j) && Texts(to, j) == []
    ensures Ready(to, j) && SpotAt(to, j, s.first).Add?
    ensures Both(to, j, s, t) == Applied(j, SpotAt(to, j, s.first), FilledRaw(Encode(Block(s)), t))
  {
    SupportedReady(to, j);
    AddedTexts(to, j, s);
    StageReady(to, j, s);
    var spot, next := SpotAt(to, j, s.first), StageRoot(j, to, s);
    hide Texts, FilledRaw, HasPath, At, Put, Ready, SpotFits, SpotAt, Applied, Encode, Block, NewPath, Supported,
         Decode;
    assert RawFor(j, spot, s) == Encode(Block(s));
    assert next == Applied(j, spot, Encode(Block(s)));
    hide StageRoot, RawFor;
    FilledTexts(to, next, t);
    AppliedTwice(j, spot, Encode(Block(s)), FilledRaw(Encode(Block(s)), t));
  }

  lemma SpotIs(to: Target, j: Json, first: bool)
    requires Supported(to, j)
    ensures Ready(to, j) && SpotOf(to, j, first) == Some(SpotAt(to, j, first))
  {
    hide Texts, Supported, SpotFits, SpotOf;
    SupportedReady(to, j);
    ReadySpot(to, j, first);
  }

  lemma SelectedSame(to: Target, j: Json)
    requires Texts(to, j) == [] && !Torn(to, j)
    ensures SpotOf(to, j, true) == SpotOf(to, j, false)
  {
    hide Texts, Arrays, MainWalk, Fallback, TextPart, TextHole, Item, PartKind;
  }

  lemma SameSpot(to: Target, j: Json)
    requires Supported(to, j) && Texts(to, j) == [] && !Torn(to, j)
    ensures Ready(to, j) && SpotAt(to, j, true) == SpotAt(to, j, false)
  {
    hide *;
    SpotIs(to, j, true);
    SpotIs(to, j, false);
    SelectedSame(to, j);
  }

  lemma EmptyFree()
    ensures Free("") && Break("") == ""
  {
    FourMarkers();
    hide Bracketed;
  }

  lemma NewCommutes(to: Target, j: Json, c: string, p: string)
    requires Supported(to, j) && Texts(to, j) == [] && !Torn(to, j)
    ensures var a, b := CavemanStage(c), PonytailStage(p);
            Ready(to, j) && Both(to, j, a, b) == Both(to, j, b, a)
  {
    var a, b := CavemanStage(c), PonytailStage(p);
    SameSpot(to, j);
    EmptyFree();
    hide Texts, FilledRaw, Ready, SpotFits, SpotAt, Applied, Encode, Block, Supported, Both, Free, Break, Torn;
    NewThen(to, j, a, b);
    NewThen(to, j, b, a);
    LiteralCommutes("", c, p);
    CavemanFill("", c);
    PonytailFill("", p);
    assert "" + "" + Encode(Block(a)) == Encode(Block(a)) && "" + "" + Encode(Block(b)) == Encode(Block(b));
  }

  /* ---------- torn apart ---------- */

  predicate ArraysOf(j: Json, ps: seq<Path>) {
    && (forall i | 0 <= i < |ps| :: HasPath(j, ps[i]) && At(j, ps[i]).Arr?)
    && (forall i, k | 0 <= i < k < |ps| :: Lt(ps[i], ps[k]))
  }

  lemma LiftArrays(j: Json, k: nat, ps: seq<Path>)
    requires k < |Items(j)| && ArraysOf(Items(j)[k].value, ps)
    ensures ArraysOf(j, LiftPaths(k, ps))
  {
    var qs := LiftPaths(k, ps);
    forall i | 0 <= i < |qs| ensures HasPath(j, qs[i]) && At(j, qs[i]) == At(Items(j)[k].value, ps[i]) {
      assert qs[i][1..] == ps[i];
    }
    forall a, b | 0 <= a < b < |qs| ensures Lt(qs[a], qs[b]) {
      assert qs[a][1..] == ps[a] && qs[b][1..] == ps[b];
    }
  }

  lemma {:induction false} ArraysOrdered(w: Walk, j: Json)
    ensures ArraysOf(j, Arrays(w, j))
    decreases j, if w.TextOrEach? then 1 else 0
  {
    hide ArraysOf, Find;
    match w
    case Text(_) => NoArrays(j);
    case TextOrEach(_, n) => ArraysOrdered(EachOf(n), j);
    case EachOf(n) =>
      if !j.Arr? { NoArrays(j); } else if n.TextBlock? { OneArray(j); } else { EachArraysOrdered(n, j, |j.items|); }
    case ItemAt(k, next) =>
      if j.Obj? && k < |j.items| {
        ArraysOrdered(next, j.items[k].value);
        LiftArrays(j, k, Arrays(next, j.items[k].value));
      } else {
        NoArrays(j);
      }
    case One(n) =>
      match Choose(n, j)
      case None => NoArrays(j);
      case Some((key, next)) =>
        if Has(j, key) {
          ArraysOrdered(next, Get(j, key));
          LiftArrays(j, Find(j.items, key), Arrays(next, Get(j, key)));
        } else {
          NoArrays(j);
        }
  }

  lemma NoArrays(j: Json)
    ensures ArraysOf(j, [])
  {
  }

  lemma OneArray(j: Json)
    requires j.Arr?
    ensures ArraysOf(j, [[]])
  {
  }

  predicate Heads(ps: seq<Path>, c: nat) { forall i | 0 <= i < |ps| :: ps[i] != [] && ps[i][0] < c }

  lemma {:induction false} EachArraysOrdered(n: Node, j: Json, c: nat)
    requires j.Arr? && c <= |j.items|
    ensures ArraysOf(j, EachArrays(n, j.items, c)) && Heads(EachArrays(n, j.items, c), c)
    decreases j.items, c
  {
    if c == 0 {
      NoArrays(j);
    } else {
      hide Arrays, HasPath, At, ArraysOf, Heads, LiftPaths;
      var ps := Arrays(One(n), j.items[c - 1].value);
      EachArraysOrdered(n, j, c - 1);
      ArraysOrdered(One(n), j.items[c - 1].value);
      LiftArrays(j, c - 1, ps);
      JoinArrays(j, EachArrays(n, j.items, c - 1), ps, c - 1);
    }
  }

  lemma JoinArrays(j: Json, front: seq<Path>, ps: seq<Path>, c: nat)
    requires ArraysOf(j, front) && Heads(front, c) && ArraysOf(j, LiftPaths(c, ps))
    ensures ArraysOf(j, front + LiftPaths(c, ps)) && Heads(front + LiftPaths(c, ps), c + 1)
  {
    hide HasPath, At;
    var last := LiftPaths(c, ps);
    assert forall i | 0 <= i < |last| :: last[i] != [] && last[i][0] == c;
  }

  lemma SelectedTorn(to: Target, j: Json)
    requires Torn(to, j)
    ensures var ps := Arrays(MainWalk(to, j), j);
            && SpotOf(to, j, true).Some? && SpotOf(to, j, false).Some?
            && var (s, t) := (SpotOf(to, j, true).value, SpotOf(to, j, false).value);
               s.Add? && t.Add? && s.path == ps[0] && t.path == ps[|ps| - 1]
  {
    hide Texts, Arrays, MainWalk, Fallback, TextPart, TextHole, Item, PartKind;
  }

  lemma FirstAndLast(j: Json, ps: seq<Path>)
    requires ArraysOf(j, ps) && |ps| >= 2
    ensures Lt(ps[0], ps[|ps| - 1]) && HasPath(j, ps[|ps| - 1]) && At(j, ps[|ps| - 1]).Arr?
  {
    hide HasPath, At, Lt;
  }

  lemma TornArrays(to: Target, j: Json)
    requires Torn(to, j)
    ensures Texts(to, j) == [] && |Arrays(MainWalk(to, j), j)| >= 2
  {
    hide Texts, Arrays;
  }

  /** The two spots are apart, and each stage alone leaves the other's array as it was. */
  lemma TornApart(to: Target, j: Json, x: string, y: string)
    requires Supported(to, j) && Torn(to, j)
    ensures Ready(to, j) && Applied(j, SpotAt(to, j, true), x) != Applied(j, SpotAt(to, j, false), y)
  {
    hide *;
    var ps := Arrays(MainWalk(to, j), j);
    SelectedTorn(to, j);
    SpotIs(to, j, true);
    SpotIs(to, j, false);
    ArraysOrdered(MainWalk(to, j), j);
    TornArrays(to, j);
    FirstAndLast(j, ps);
    AppliedElsewhere(j, SpotAt(to, j, true), x, ps[|ps| - 1]);
    AppliedHere(j, SpotAt(to, j, false), y);
  }

  /** With two arrays and no text, the first stage to run decides where both blocks go. */
  lemma TornDiffers(to: Target, j: Json, c: string, p: string)
    requires Supported(to, j) && Torn(to, j)
    ensures Ready(to, j)
            && Both(to, j, CavemanStage(c), PonytailStage(p)) != Both(to, j, PonytailStage(p), CavemanStage(c))
  {
    hide Supported, Torn, Texts, Arrays, MainWalk, Both, Ready, SpotAt, SpotFits, Applied, FilledRaw, Encode, Block;
    TornArrays(to, j);
    var a, b := CavemanStage(c), PonytailStage(p);
    NewThen(to, j, a, b);
    NewThen(to, j, b, a);
    TornApart(to, j, FilledRaw(Encode(Block(a)), b), FilledRaw(Encode(Block(b)), a));
  }

  lemma AppliedElsewhere(j: Json, spot: Spot, raw: string, q: Path)
    requires SpotFits(j, spot) && spot.Add? && HasPath(j, q) && Lt(spot.path, q)
    ensures HasPath(Applied(j, spot, raw), q) && At(Applied(j, spot, raw), q) == At(j, q)
  {
    hide HasPath, At, Put, Lt, Added, Filled, WfElem;
    PutOther(j, q, spot.path, Added(At(j, spot.path), spot.front, Filled(spot.elem, spot.hole, raw)));
  }

  lemma AppliedHere(j: Json, spot: Spot, raw: string)
    requires SpotFits(j, spot) && spot.Add? && At(j, spot.path).Arr?
    ensures HasPath(Applied(j, spot, raw), spot.path) && At(Applied(j, spot, raw), spot.path) != At(j, spot.path)
  {
    var a := At(j, spot.path);
    var f := Filled(spot.elem, spot.hole, raw);
    assert |Added(a, spot.front, f).items| == |a.items| + 1;
    hide HasPath, At, Put, Added, Filled, WfElem;
    PutAt(j, spot.path, Added(a, spot.front, f));
  }

  /* ---------- bodies ---------- */

  lemma RootsCommute(to: Target, j: Json, c: string, p: string)
    requires Supported(to, j) && TextsFree(to, j)
    ensures var a, b := CavemanStage(c), PonytailStage(p);
            Ready(to, j) && (Both(to, j, a, b) == Both(to, j, b, a) <==> !Torn(to, j))
  {
    hide *;
    SupportedReady(to, j);
    if Texts(to, j) != [] {
      TextsCommute(to, j, c, p);
      NotTorn(to, j);
    } else if Torn(to, j) {
      TornDiffers(to, j, c, p);
    } else {
      NewCommutes(to, j, c, p);
    }
  }

  lemma NotTorn(to: Target, j: Json)
    requires Texts(to, j) != []
    ensures !Torn(to, j)
  {
    hide Texts, Arrays;
  }

  predicate MarkerFree(s: string) {
    && IndexOf(s, CAVEMAN_START).None? && IndexOf(s, CAVEMAN_END).None?
    && IndexOf(s, PONYTAIL_START).None? && IndexOf(s, PONYTAIL_END).None?
  }

  lemma {:induction false} BodyTextsFree(d: Doc, to: Target)
    requires WfDoc(d) && MarkerFree(PrintDoc(d))
    ensures TextsFree(to, d.root)
  {
    var j, ts := d.root, Texts(to, d.root);
    TextsApart(to, j);
    hide Texts, HasPath, At, Decode, IndexOf, Wf, Left, Right, Print, Lt;
    forall i | 0 <= i < |ts| ensures Free(At(j, ts[i].path).raw) {
      var p := ts[i].path;
      AtWf(j, p);
      var raw := At(j, p).raw;
      StrRaw(raw);
      PrintAt(j, p);
      if IndexOf(raw, PONYTAIL_START).Some? {
        InBody(d.lead + Left(j, p) + "\"", raw, "\"" + Right(j, p) + d.trail, PrintDoc(d));
      }
    }
  }

  lemma StrRaw(raw: string)
    ensures Print(Str(raw)) == "\"" + raw + "\"" && (Wf(Str(raw)) ==> ValidRaw(raw))
  {
  }

  lemma InBody(l: string, raw: string, r: string, body: string)
    requires body == l + raw + r && IndexOf(raw, PONYTAIL_START).Some?
    ensures IndexOf(body, PONYTAIL_START).Some?
  {
    Occurring(raw, PONYTAIL_START, IndexOf(raw, PONYTAIL_START).value);
    ContainsAround(l, raw, r, PONYTAIL_START);
  }

  /** Running one stage and then the other on a body without any marker. */
  lemma BothOnBody(d: Doc, to: Target, s: Stage, t: Stage)
    requires WfDoc(d) && Ready(to, d.root) && Fenced(s) && Fenced(t) && Tagged(t.start) && Tagged(t.end)
    requires !Contains(PrintDoc(d), s.start) && !Contains(PrintDoc(d), s.end)
    requires !Contains(PrintDoc(d), t.start) && !Contains(PrintDoc(d), t.end)
    requires !Contains(s.prompt, t.start) && !Contains(s.prompt, t.end)
    requires s.start != t.start && s.start != t.end && s.end != t.start && s.end != t.end
    ensures var next := d.(root := Both(to, d.root, s, t));
            WfDoc(next) && InjectStage(InjectStage(PrintDoc(d), to, s), to, t) == PrintDoc(next)
  {
    hide WfDoc, Ready, Fenced, Tagged, Contains, PrintDoc, InjectStage, StageRoot, Texts;
    StageOnBody(d, to, s);
    StageInserts(d, to, s);
    StageMarkers(d, to, s, t.start);
    StageMarkers(d, to, s, t.end);
    StageReady(to, d.root, s);
    TextsReady(to, StageRoot(d.root, to, s));
    StageOnBody(StageDoc(d, to, s), to, t);
    StageInserts(StageDoc(d, to, s), to, t);
  }

  /** The prompts bring no markers of their own. */
  predicate PromptsFree(c: string, p: string) { MarkerFree(c) && MarkerFree(p) }

  lemma FreeOf(s: string)
    requires MarkerFree(s)
    ensures !Contains(s, CAVEMAN_START) && !Contains(s, CAVEMAN_END)
    ensures !Contains(s, PONYTAIL_START) && !Contains(s, PONYTAIL_END)
  {
    hide IndexOf, Bracketed;
  }

  /**
   On a supported body without markers the two stages give the same bytes in either order,
   unless there is no instruction text and there are two or more arrays for it.
   */
  lemma StagesCommute(body: string, to: Target, c: string, p: string)
    requires Parse(body).Some? && Supported(to, Parse(body).value.root)
    requires MarkerFree(body) && PromptsFree(c, p)
    ensures var a, b := CavemanStage(c), PonytailStage(p);
            InjectStage(InjectStage(body, to, a), to, b) == InjectStage(InjectStage(body, to, b), to, a)
            <==> !Torn(to, Parse(body).value.root)
  {
    var d := Parse(body).value;
    var a, b := CavemanStage(c), PonytailStage(p);
    StagesFenced(c, p);
    FreeOf(body);
    FreeOf(c);
    FreeOf(p);
    hide Supported, MarkerFree, WfDoc, PrintDoc, Contains, InjectStage, Torn, Ready, Both, Fenced, Tagged, TextsFree,
         Texts, Bracketed;
    SupportedReady(to, d.root);
    BodyTextsFree(d, to);
    BothOnBody(d, to, a, b);
    BothOnBody(d, to, b, a);
    RootsCommute(to, d.root, c, p);
    var x, y := d.(root := Both(to, d.root, a, b)), d.(root := Both(to, d.root, b, a));
    if PrintDoc(x) == PrintDoc(y) { DocUnique(x, y); }
  }
}
