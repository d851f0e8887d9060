/** The one instruction text of a payload that had none, after a new part went in. */
module PromptGrowth {
  import opened Common
  import opened JsonText
  import opened JsonTree
  import opened JsonEdit
  import opened JsonQuery
  import opened JsonSlots
  import opened JsonGrow
  import opened JsonBuild
  import opened Protocol
  import opened PromptSites
  import opened PromptSitesProofs

  lemma {:induction false} EachEmpty(n: Node, es: seq<Elem>, c: nat, i: nat)
    requires i < c <= |es| && EachSlots(n, es, c) == []
    ensures Slots(One(n), es[i].value) == []
    decreases c
  {
    hide Slots;
    if i < c - 1 { EachEmpty(n, es, c - 1, i); }
  }

  lemma EachStep(n: Node, es: seq<Elem>, c: nat)
    requires 0 < c <= |es|
    ensures EachSlots(n, es, c) == EachSlots(n, es, c - 1) + Lift(c - 1, Slots(One(n), es[c - 1].value))
    ensures Slots(One(n), es[c - 1].value) == [] ==> EachSlots(n, es, c) == EachSlots(n, es, c - 1)
  {
    hide Slots;
  }

  lemma {:induction false} EachSole(n: Node, es: seq<Elem>, c: nat, k: nat)
    requires c <= |es| && k < |es| && forall i | 0 <= i < |es| && i != k :: Slots(One(n), es[i].value) == []
    ensures EachSlots(n, es, c) == if k < c then Lift(k, Slots(One(n), es[k].value)) else []
    decreases c
  {
    if c == 0 {
      hide Slots;
    } else {
      hide *;
      EachSole(n, es, c - 1, k);
      EachStep(n, es, c);
    }
  }

  lemma EachReplaced(n: Node, es: seq<Elem>, k: nat, v: Json)
    requires k < |es| && EachSlots(n, es, |es|) == []
    ensures EachSlots(n, es[k := es[k].(value := v)], |es|) == Lift(k, Slots(One(n), v))
  {
    hide Slots;
    var fs := es[k := es[k].(value := v)];
    forall i | 0 <= i < |fs| && i != k ensures Slots(One(n), fs[i].value) == [] { EachEmpty(n, es, |es|, i); }
    EachSole(n, fs, |fs|, k);
  }

  lemma EachAppended(n: Node, es: seq<Elem>, e: Elem)
    requires EachSlots(n, es, |es|) == []
    ensures EachSlots(n, es + [e], |es| + 1) == Lift(|es|, Slots(One(n), e.value))
  {
    hide Slots;
    EachSame(n, es, es + [e], |es|);
  }

  lemma EachPrepended(n: Node, es: seq<Elem>, e: Elem)
    requires EachSlots(n, es, |es|) == []
    ensures EachSlots(n, [e] + es, |es| + 1) == Lift(0, Slots(One(n), e.value))
  {
    hide Slots;
    var fs := [e] + es;
    forall i | 0 < i < |fs| ensures Slots(One(n), fs[i].value) == [] { EachEmpty(n, es, |es|, i - 1); }
    EachSole(n, fs, |fs|, 0);
  }

  lemma EachOfSlots(n: Node, j: Json)
    requires j.Arr?
    ensures Slots(EachOf(n), j) == EachSlots(n, j.items, |j.items|)
  {
  }

  lemma LiftSole(k: nat, q: Path, text: string)
    ensures Lift(k, [Slot(q, text, PROMPT)]) == [Slot(Inside(ROOT, k, q), text, PROMPT)]
  {
    assert ROOT + [k] + q == [k] + q;
  }

  lemma LiftDown(p: Path, n: nat, hole: Path, text: string)
    requires p != []
    ensures Lift(p[0], [Slot(Inside(p[1..], n, hole), text, PROMPT)]) == [Slot(Inside(p, n, hole), text, PROMPT)]
  {
    assert [p[0]] + (p[1..] + [n] + hole) == p + [n] + hole;
  }

  lemma AddedShape(j: Json, front: bool, e: Elem)
    requires j.Arr?
    ensures var j' := Added(j, front, e);
            && j'.Arr? && |j'.items| == |j.items| + 1
            && (j.items == [] ==> j'.items[0].value == e.value)
            && (j.items != [] ==> j'.items == if front then [e] + j.items else j.items + [e])
  {
  }

  lemma EachFirst(n: Node, es: seq<Elem>)
    requires |es| == 1
    ensures EachSlots(n, es, 1) == Lift(0, Slots(One(n), es[0].value))
  {
    EachSole(n, es, 1, 0);
    hide *;
  }

  /** An item with one text, added to an array without any. */
  lemma ItemGrown(n: Node, j: Json, front: bool, e: Elem, q: Path, text: string)
    requires j.Arr? && Slots(EachOf(n), j) == [] && Slots(One(n), e.value) == [Slot(q, text, PROMPT)]
    ensures Slots(EachOf(n), Added(j, front, e))
            == [Slot(Inside(ROOT, if front then 0 else |j.items|, q), text, PROMPT)]
  {
    hide *;
    AddedShape(j, front, e);
    EachOfSlots(n, j);
    EachOfSlots(n, Added(j, front, e));
    if j.items == [] {
      EachFirst(n, Added(j, front, e).items);
      LiftSole(0, q, text);
    } else if front {
      EachPrepended(n, j.items, e);
      LiftSole(0, q, text);
    } else {
      EachAppended(n, j.items, e);
      LiftSole(|j.items|, q, text);
    }
  }

  /** The text of a written part. */
  lemma PartText(kind: string, raw: string)
    ensures var v := TextPart(kind, Str(raw));
            && v.Obj? && Has(v, "text") && [Find(v.items, "text")] == TextHole(kind)
            && Get(v, "text") == Str(raw)
            && (kind != "" ==> TextAt(v, "type") == kind)
  {
    hide Decode, Encode, NameIs;
    var v := TextPart(kind, Str(raw));
    assert "text"[1] != "type"[1];
    FieldName("text", Str(raw), "text");
    if kind == "" {
      FindField(v.items, "text", 0);
    } else {
      FieldName("type", Str(Encode(kind)), "type");
      FieldName("type", Str(Encode(kind)), "text");
      FindField(v.items, "type", 0);
      FindField(v.items, "text", 1);
      DecodeEncode(kind);
    }
  }

  lemma PartSlots(kind: string, raw: string)
    ensures Slots(One(TextBlock(kind)), TextPart(kind, Str(raw))) == [Slot(TextHole(kind), Decode(raw), PROMPT)]
  {
    PartText(kind, raw);
    hide Decode, Encode, Find, TextPart;
    assert Slots(Text(PROMPT), Str(raw)) == [Slot([], Decode(raw), PROMPT)];
    assert [TextHole(kind)[0]] + [] == TextHole(kind);
  }

  predicate Prompting(w: Walk, kind: string) {
    match w
    case Text(_) => false
    case TextOrEach(_, n) => n == TextBlock(kind)
    case EachOf(n) => n == TextBlock(kind) || n == Instruction(kind)
    case ItemAt(_, next) => Prompting(next, kind)
    case One(n) =>
      match n
      case Member(_, next) => Prompting(next, kind)
      case Instruction(k) => k == kind
      case _ => false
  }

  function Grown(j: Json, kind: string, raw: string): Json
    requires j.Arr?
  {
    Added(j, false, Item(TextPart(kind, Str(raw))))
  }

  /** The part put in at p is the only text a walk then finds. */
  predicate Sole(w: Walk, j: Json, p: Path, kind: string, raw: string) {
    && HasPath(j, p) && At(j, p).Arr?
    && Slots(w, Put(j, p, Grown(At(j, p), kind, raw)))
       == [Slot(Inside(p, |At(j, p).items|, TextHole(kind)), Decode(raw), PROMPT)]
  }

  lemma ArrayGrown(kind: string, j: Json, raw: string)
    requires j.Arr? && Slots(EachOf(TextBlock(kind)), j) == []
    ensures Slots(EachOf(TextBlock(kind)), Grown(j, kind, raw))
            == [Slot(Inside(ROOT, |j.items|, TextHole(kind)), Decode(raw), PROMPT)]
  {
    PartSlots(kind, raw);
    hide Decode, TextPart, TextHole, Slots, Added;
    ItemGrown(TextBlock(kind), j, false, Item(TextPart(kind, Str(raw))), TextHole(kind), Decode(raw));
  }

  lemma {:induction false} EachArraysIn(n: Node, es: seq<Elem>, c: nat, p: Path)
    requires c <= |es| && p in EachArrays(n, es, c)
    ensures p != [] && p[0] < c && p[1..] in Arrays(One(n), es[p[0]].value)
    decreases c
  {
    hide Arrays;
    if c > 0 {
      if p in EachArrays(n, es, c - 1) {
        EachArraysIn(n, es, c - 1, p);
      } else {
        LiftedIn(c - 1, Arrays(One(n), es[c - 1].value), p);
      }
    }
  }

  lemma LiftedIn(k: nat, ps: seq<Path>, p: Path)
    requires p in LiftPaths(k, ps)
    ensures p != [] && p[0] == k && p[1..] in ps && p == [k] + p[1..]
  {
    var i :| 0 <= i < |ps| && p == LiftPaths(k, ps)[i];
    assert p[1..] == ps[i];
  }

  lemma {:induction false} ArraysGrown(w: Walk, j: Json, p: Path, kind: string, raw: string)
    requires Prompting(w, kind) && Slots(w, j) == [] && p in Arrays(w, j)
    ensures Sole(w, j, p, kind, raw)
    decreases j, if w.TextOrEach? then 1 else 0
  {
    hide Sole, Find;
    match w
    case TextOrEach(_, n) =>
      ArraysGrown(EachOf(n), j, p, kind, raw);
      EitherSole(w, n, j, p, kind, raw);
    case EachOf(n) =>
      if n.TextBlock? {
        assert p == [];
        BlocksSole(j, kind, raw);
      } else {
        EachArraysIn(n, j.items, |j.items|, p);
        EachEmpty(n, j.items, |j.items|, p[0]);
        ArraysGrown(One(n), j.items[p[0]].value, p[1..], kind, raw);
        EachGrown(n, j, p, kind, raw);
      }
    case ItemAt(k, next) =>
      LiftedIn(k, Arrays(next, j.items[k].value), p);
      ArraysGrown(next, j.items[k].value, p[1..], kind, raw);
      ItemAtGrown(k, next, j, p, kind, raw);
    case One(n) =>
      var (key, next) := Choose(n, j).value;
      LiftedIn(Find(j.items, key), Arrays(next, Get(j, key)), p);
      ArraysGrown(next, Get(j, key), p[1..], kind, raw);
      OneGrown(n, j, p, kind, raw);
  }

  lemma EitherSole(w: Walk, n: Node, j: Json, p: Path, kind: string, raw: string)
    requires w.TextOrEach? && w.item == n && Sole(EachOf(n), j, p, kind, raw)
    ensures Sole(w, j, p, kind, raw)
  {
    assert p == [] ==> Put(j, p, Grown(At(j, p), kind, raw)).Arr?;
    assert !Put(j, p, Grown(At(j, p), kind, raw)).Str?;
    hide Decode, Grown, TextHole, Put, At, HasPath;
  }

  lemma BlocksSole(j: Json, kind: string, raw: string)
    requires j.Arr? && Slots(EachOf(TextBlock(kind)), j) == []
    ensures Sole(EachOf(TextBlock(kind)), j, ROOT, kind, raw)
  {
    ArrayGrown(kind, j, raw);
    hide Slots, Decode, Grown, TextHole;
  }

  lemma SoleAt(w: Walk, j: Json, p: Path, kind: string, raw: string)
    requires Sole(w, j, p, kind, raw)
    ensures HasPath(j, p) && At(j, p).Arr? && SameSort(At(j, p), Grown(At(j, p), kind, raw))
    ensures Slots(w, Put(j, p, Grown(At(j, p), kind, raw)))
            == [Slot(Inside(p, |At(j, p).items|, TextHole(kind)), Decode(raw), PROMPT)]
  {
    hide Slots, Decode, TextHole, HasPath, Put, At;
  }

  lemma SoleBy(w: Walk, j: Json, p: Path, kind: string, raw: string, k: Json, q: Path)
    requires HasPath(j, p) && At(j, p).Arr? && k == Put(j, p, Grown(At(j, p), kind, raw))
    requires q == Inside(p, |At(j, p).items|, TextHole(kind)) && Slots(w, k) == [Slot(q, Decode(raw), PROMPT)]
    ensures Sole(w, j, p, kind, raw)
  {
    hide Slots, Decode, TextHole, HasPath, Put, At, Grown;
  }

  /** One level down and up again. */
  lemma SoleUp(w: Walk, inner: Walk, j: Json, p: Path, kind: string, raw: string)
    requires p != [] && p[0] < |Items(j)| && Sole(inner, Items(j)[p[0]].value, p[1..], kind, raw)
    requires var v := Items(j)[p[0]].value;
             HasPath(v, p[1..]) && At(v, p[1..]).Arr?
             && var v' := Put(v, p[1..], Grown(At(v, p[1..]), kind, raw));
                Slots(w, SetChild(j, p[0], v')) == Lift(p[0], Slots(inner, v'))
    ensures Sole(w, j, p, kind, raw)
  {
    var v := Items(j)[p[0]].value;
    var v' := Put(v, p[1..], Grown(At(v, p[1..]), kind, raw));
    SoleAt(inner, v, p[1..], kind, raw);
    assert HasPath(j, p) && At(j, p) == At(v, p[1..]);
    PutStep(j, p, Grown(At(j, p), kind, raw));
    hide *;
    var n := |At(v, p[1..]).items|;
    LiftDown(p, n, TextHole(kind), Decode(raw));
    SoleBy(w, j, p, kind, raw, SetChild(j, p[0], v'), Inside(p, n, TextHole(kind)));
  }

  lemma EachGrown(n: Node, j: Json, p: Path, kind: string, raw: string)
    requires j.Arr? && p != [] && p[0] < |j.items| && EachSlots(n, j.items, |j.items|) == []
    requires Sole(One(n), j.items[p[0]].value, p[1..], kind, raw)
    ensures Sole(EachOf(n), j, p, kind, raw)
  {
    var v := j.items[p[0]].value;
    SoleAt(One(n), v, p[1..], kind, raw);
    var v' := Put(v, p[1..], Grown(At(v, p[1..]), kind, raw));
    var es := j.items[p[0] := j.items[p[0]].(value := v')];
    assert SetChild(j, p[0], v') == Arr(es, j.gap);
    hide Sole, Put, Grown, At, HasPath, SetChild, Slots, EachSlots, Lift, Decode, TextHole;
    EachOfSlots(n, Arr(es, j.gap));
    EachReplaced(n, j.items, p[0], v');
    SoleUp(EachOf(n), One(n), j, p, kind, raw);
  }

  lemma ItemAtGrown(k: nat, next: Walk, j: Json, p: Path, kind: string, raw: string)
    requires j.Obj? && p != [] && p[0] == k < |j.items| && Sole(next, j.items[k].value, p[1..], kind, raw)
    ensures Sole(ItemAt(k, next), j, p, kind, raw)
  {
    var v := j.items[k].value;
    SoleAt(next, v, p[1..], kind, raw);
    var v' := Put(v, p[1..], Grown(At(v, p[1..]), kind, raw));
    hide Sole, Decode, Grown, TextHole, Put, At, HasPath, Lift;
    assert Slots(ItemAt(k, next), SetChild(j, k, v')) == Lift(k, Slots(next, v'));
    SoleUp(ItemAt(k, next), next, j, p, kind, raw);
  }

  lemma OneGrown(n: Node, j: Json, p: Path, kind: string, raw: string)
    requires Choose(n, j).Some? && Has(j, Choose(n, j).value.0) && p != []
             && p[0] == Find(j.items, Choose(n, j).value.0)
    requires Sole(Choose(n, j).value.1, Get(j, Choose(n, j).value.0), p[1..], kind, raw)
    ensures Sole(One(n), j, p, kind, raw)
  {
    var (key, next) := Choose(n, j).value;
    var v := Get(j, key);
    SoleAt(next, v, p[1..], kind, raw);
    var a := At(v, p[1..]);
    var v' := Put(v, p[1..], Grown(a, kind, raw));
    assert j.Obj? && v == j.items[p[0]].value;
    hide Sole, Decode, Grown, TextHole, Put, At, HasPath, Choose, Find, Has, Get, Slots, Lift, SetChild;
    forall name ensures Has(v', name) == Has(v, name) { SortHas(v, p[1..], Grown(a, kind, raw), name); }
    ChooseStable(n, j, v');
    SetChildFind(j, p[0], v', key);
    SlotsOne(n, SetChild(j, p[0], v'), key, next);
    SoleUp(One(n), next, j, p, kind, raw);
  }

  lemma SlotsOne(n: Node, j: Json, key: string, next: Walk)
    requires Choose(n, j) == Some((key, next)) && Has(j, key)
    ensures Slots(One(n), j) == Lift(Find(j.items, key), Slots(next, Get(j, key)))
  {
    hide Choose, Find, Lift;
  }

  /* ---------- a new message or field ---------- */

  /** An object with one more member, of a new name. */
  lemma FieldAdded(g: Json, key: string, v: Json, name: string)
    requires g.Obj? && g.items != [] && !Has(g, key)
    ensures var h := Added(g, false, Field(key, v));
            && h == Obj(g.items + [Field(key, v)], "")
            && (name == key ==> Has(h, name) && Find(h.items, name) == |g.items| && Get(h, name) == v)
            && (name != key ==> Has(h, name) == Has(g, name)
                                && (Has(g, name) ==> Find(h.items, name) == Find(g.items, name)
                                                     && Get(h, name) == Get(g, name)))
  {
    FieldName(key, v, name);
    var es := g.items + [Field(key, v)];
    assert forall i | 0 <= i < |g.items| :: es[i] == g.items[i];
    hide NameIs, Field;
    if name == key {
      FindField(es, name, |g.items|);
    } else if Has(g, name) {
      FindField(es, name, Find(g.items, name));
    } else {
      assert forall i | 0 <= i < |es| :: !NameIs(es[i], name);
    }
  }

  lemma MessageText(raw: string)
    ensures Slots(One(Instruction("text")), MessagePart(Str(raw))) == [Slot([1], Decode(raw), PROMPT)]
  {
    hide Decode, Encode, NameIs;
    var v := MessagePart(Str(raw));
    assert "role"[0] != "content"[0];
    FieldName("role", Str(Encode("system")), "role");
    FieldName("role", Str(Encode("system")), "content");
    FieldName("content", Str(raw), "content");
    FindField(v.items, "role", 0);
    FindField(v.items, "content", 1);
    DecodeEncode("system");
    MessageSlots(v, raw);
  }

  lemma MessageSlots(v: Json, raw: string)
    requires v.Obj? && Has(v, "content") && Find(v.items, "content") == 1 && Get(v, "content") == Str(raw)
    requires TextAt(v, "role") == "system"
    ensures Slots(One(Instruction("text")), v) == [Slot([1], Decode(raw), PROMPT)]
  {
    hide Decode, Find, TextAt;
    assert Slots(TextOrEach(PROMPT, TextBlock("text")), Str(raw)) == [Slot([], Decode(raw), PROMPT)];
    assert [1] + [] == [1];
  }

  lemma GeminiText(raw: string)
    ensures Slots(One(Member("parts", EachOf(TextBlock("")))), GeminiSystem(Str(raw)))
            == [Slot(SYSTEM_HOLE, Decode(raw), PROMPT)]
  {
    hide Decode, Encode, NameIs, TextPart, Slots, Lift, EachSlots;
    var part := TextPart("", Str(raw));
    PartSlots("", raw);
    var parts := Arr([Item(part)], "");
    FieldName("parts", parts, "parts");
    FindField(GeminiSystem(Str(raw)).items, "parts", 0);
    EachFirst(TextBlock(""), parts.items);
    EachOfSlots(TextBlock(""), parts);
    MemberSlots("parts", EachOf(TextBlock("")), GeminiSystem(Str(raw)));
    hide Find;
    LiftSole(0, TextHole(""), Decode(raw));
    LiftSole(0, Inside(ROOT, 0, TextHole("")), Decode(raw));
    assert ROOT + [0] + (ROOT + [0] + [0]) == [0, 0, 0];
  }
}
