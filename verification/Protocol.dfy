/** What a view says of a text, and walks that find texts by descending from object to object. */
module Protocol {
  import opened Common
  import opened JsonText
  import opened JsonTree
  import opened JsonEdit
  import opened JsonQuery
  import opened JsonSlots

  datatype Kind = OpenAIChat | OpenAIResponses | ClaudeMessages | Gemini
  datatype Mark = Mark(id: string, kind: Kind, error: bool)
  type Slot = JsonSlots.Slot<Mark>

  const PROMPT: Mark := Mark("", OpenAIChat, false)

  /** The object levels a walk goes through. */
  datatype Node =
    | Member(key: string, next: Walk)
    | Instruction(kind: string)
    | TextBlock(kind: string)

  /** What a walk does with the value it has reached. */
  datatype Walk =
    | Text(mark: Mark)                    // a string is a slot
    | TextOrEach(mark: Mark, item: Node)  // a string is a slot, an array is walked
    | EachOf(item: Node)
    | One(item: Node)
    | ItemAt(index: nat, next: Walk)      // the member at this index

  predicate OutputType(s: string) {
    s == "custom_tool_call_output" || s == "function_call_output"
    || s == "local_shell_call_output" || s == "apply_patch_call_output"
  }

  function GeminiId(j: Json): string {
    if TextAt(j, "id") != "" then TextAt(j, "id") else TextAt(j, "name")
  }

  /** The member to descend into, if this object qualifies. */
  function Choose(n: Node, j: Json): Option<(string, Walk)> {
    if !j.Obj? then None else
    match n
    case Member(key, next) => Some((key, next))
    case Instruction(kind) =>
      if TextAt(j, "role") == "system" || TextAt(j, "role") == "developer"
      then Some(("content", TextOrEach(PROMPT, TextBlock(kind)))) else None
    case TextBlock(kind) => if kind == "" || TextAt(j, "type") == kind then Some(("text", Text(PROMPT))) else None
  }

  /** The slots a walk finds, in payload order, with paths relative to j. */
  function Slots(w: Walk, j: Json): seq<Slot>
    decreases j, if w.TextOrEach? then 1 else 0
  {
    match w
    case Text(m) => if j.Str? then [Slot([], Decode(j.raw), m)] else []
    case TextOrEach(m, n) => if j.Str? then [Slot([], Decode(j.raw), m)] else Slots(EachOf(n), j)
    case EachOf(n) => if j.Arr? then EachSlots(n, j.items, |j.items|) else []
    case ItemAt(k, next) => if j.Obj? && k < |j.items| then Lift(k, Slots(next, j.items[k].value)) else []
    case One(n) =>
      match Choose(n, j)
      case None => []
      case Some((key, next)) =>
        if Has(j, key) then Lift(Find(j.items, key), Slots(next, Get(j, key))) else []
  }

  /** The slots of the first c items. */
  function EachSlots(n: Node, es: seq<Elem>, c: nat): seq<Slot>
    requires c <= |es|
    decreases es, c
  {
    if c == 0 then []
    else EachSlots(n, es, c - 1) + Lift(c - 1, Slots(One(n), es[c - 1].value))
  }

  lemma {:induction false} SlotsOrdered(w: Walk, j: Json)
    ensures OrderedSlots(j, Slots(w, j))
    decreases j, if w.TextOrEach? then 1 else 0
  {
    match w
    case Text(m) =>
    case TextOrEach(m, n) => if !j.Str? { SlotsOrdered(EachOf(n), j); }
    case EachOf(n) => if j.Arr? { EachOrdered(n, j, |j.items|); }
    case ItemAt(k, next) =>
      if j.Obj? && k < |j.items| {
        SlotsOrdered(next, j.items[k].value);
        LiftSlots(j, k, Slots(next, j.items[k].value));
      }
    case One(n) =>
      match Choose(n, j)
      case None =>
      case Some((key, next)) =>
        if Has(j, key) {
          SlotsOrdered(next, Get(j, key));
          LiftSlots(j, Find(j.items, key), Slots(next, Get(j, key)));
        }
  }

  lemma {:induction false} EachOrdered(n: Node, j: Json, c: nat)
    requires j.Arr? && c <= |j.items|
    ensures OrderedSlots(j, EachSlots(n, j.items, c)) && HeadsBelow(EachSlots(n, j.items, c), c)
    decreases j.items, c
  {
    if c > 0 {
      hide Slots, OrderedSlots, HeadsBelow, Lift;
      var e := j.items[c - 1];
      EachOrdered(n, j, c - 1);
      SlotsOrdered(One(n), e.value);
      LiftSlots(j, c - 1, Slots(One(n), e.value));
      JoinSlots(j, EachSlots(n, j.items, c - 1), c - 1, Slots(One(n), e.value));
    } else {
      hide Slots, Decode, HasPath, At;
    }
  }

  /* ---------- replacing one slot's text ---------- */

  /** The fields an object level reads are not the member it descends into. */
  lemma ChooseStable(n: Node, j: Json, v: Json)
    requires Choose(n, j).Some? && Has(j, Choose(n, j).value.0)
    ensures Choose(n, SetChild(j, Find(j.items, Choose(n, j).value.0), v)) == Choose(n, j)
  {
    var key := Choose(n, j).value.0;
    var j' := SetChild(j, Find(j.items, key), v);
    assert j.Obj? && j'.Obj?;
    forall name | name != key ensures TextAt(j', name) == TextAt(j, name) {
      FieldStable(j, key, v, name);
    }
    SetChildFind(j, Find(j.items, key), v, key);
    ChooseReads(n, j, j');
  }

  lemma ChooseReads(n: Node, j: Json, j': Json)
    requires j.Obj? && j'.Obj? && Choose(n, j).Some?
    requires var key := Choose(n, j).value.0; forall name | name != key :: TextAt(j', name) == TextAt(j, name)
    ensures Choose(n, j') == Choose(n, j)
  {
    hide Find, Has, TextAt, Get;
    assert "text"[1] != "type"[1];
  }

  lemma FieldStable(j: Json, key: string, v: Json, name: string)
    requires Has(j, key) && name != key
    ensures var j' := SetChild(j, Find(j.items, key), v);
            TextAt(j', name) == TextAt(j, name)
  {
    hide TextOf, Find;
    SetChildFind(j, Find(j.items, key), v, name);
    if Has(j, name) { FindDiffers(j.items, key, name); }
  }

  /**
   Writing a literal into one slot changes that slot's text and nothing else a view reports:
   no identity, kind or error flag, no other text, no position.
   */
  lemma {:induction false} PutSlot(w: Walk, j: Json, k: nat, r: string)
    requires k < |Slots(w, j)|
    ensures HasPath(j, Slots(w, j)[k].path)
    ensures Slots(w, Put(j, Slots(w, j)[k].path, Str(r))) == Retext(Slots(w, j), k, r)
    decreases j, if w.TextOrEach? then 1 else 0
  {
    SlotsOrdered(w, j);
    match w
    case Text(m) =>
    case TextOrEach(m, n) =>
      if !j.Str? {
        PutSlot(EachOf(n), j, k, r);
        EachOrdered(n, j, |Items(j)|);
      }
    case EachOf(n) =>
      EachOrdered(n, j, |j.items|);
      EachPut(n, j, |j.items|, k, r);
    case One(n) =>
      var (key, next) := Choose(n, j).value;
      var v := Get(j, key);
      PutSlot(next, v, k, r);
      SlotsOrdered(next, v);
      PutOne(n, j, key, next, k, r);
    case ItemAt(i, next) =>
      PutSlot(next, j.items[i].value, k, r);
      PutItemAt(j, i, next, k, r);
  }

  lemma PutItemAt(j: Json, i: nat, next: Walk, k: nat, r: string)
    requires j.Obj? && i < |j.items| && k < |Slots(next, j.items[i].value)|
    requires var v := j.items[i].value;
             && HasPath(v, Slots(next, v)[k].path)
             && Slots(next, Put(v, Slots(next, v)[k].path, Str(r))) == Retext(Slots(next, v), k, r)
    ensures k < |Slots(ItemAt(i, next), j)| && HasPath(j, Slots(ItemAt(i, next), j)[k].path)
    ensures Slots(ItemAt(i, next), Put(j, Slots(ItemAt(i, next), j)[k].path, Str(r)))
            == Retext(Slots(ItemAt(i, next), j), k, r)
  {
    hide Decode, HasPath, Put, At;
    var ss := Slots(next, j.items[i].value);
    PutChild(j, i, ss[k].path, Str(r));
    assert Slots(ItemAt(i, next), j)[k].path == [i] + ss[k].path;
    assert Lift(i, Retext(ss, k, r)) == Retext(Lift(i, ss), k, r);
  }

  lemma PutOne(n: Node, j: Json, key: string, next: Walk, k: nat, r: string)
    requires Choose(n, j) == Some((key, next)) && Has(j, key)
    requires var v := Get(j, key);
             && k < |Slots(next, v)| && HasPath(v, Slots(next, v)[k].path) && At(v, Slots(next, v)[k].path).Str?
             && Slots(next, Put(v, Slots(next, v)[k].path, Str(r))) == Retext(Slots(next, v), k, r)
    ensures k < |Slots(One(n), j)| && HasPath(j, Slots(One(n), j)[k].path)
    ensures Slots(One(n), Put(j, Slots(One(n), j)[k].path, Str(r))) == Retext(Slots(One(n), j), k, r)
  {
    hide Choose, Decode, HasPath, Put, At;
    var i, v := Find(j.items, key), Get(j, key);
    var ss := Slots(next, v);
    var p := ss[k].path;
    ChooseStable(n, j, Put(v, p, Str(r)));
    SetChildFind(j, i, Put(v, p, Str(r)), key);
    PutChild(j, i, p, Str(r));
    assert Slots(One(n), j)[k].path == [i] + p;
    assert Lift(i, Retext(ss, k, r)) == Retext(Lift(i, ss), k, r);
  }

  lemma {:induction false} EachPut(n: Node, j: Json, c: nat, k: nat, r: string)
    requires j.Arr? && c <= |j.items| && k < |EachSlots(n, j.items, c)|
    ensures HasPath(j, EachSlots(n, j.items, c)[k].path)
    ensures var j' := Put(j, EachSlots(n, j.items, c)[k].path, Str(r));
            j'.Arr? && |j'.items| == |j.items|
            && EachSlots(n, j'.items, c) == Retext(EachSlots(n, j.items, c), k, r)
    decreases j.items, c
  {
    hide OrderedSlots, HeadsBelow, Lift, Put, HasPath, Slots, Retext;
    var front, v := EachSlots(n, j.items, c - 1), j.items[c - 1].value;
    if k < |front| {
      EachHead(n, j, c - 1, k);
      EachPut(n, j, c - 1, k, r);
      EachPutBelow(n, j, c, k, r);
    } else {
      assert k - |front| < |Slots(One(n), v)| by { EachLength(n, j.items, c); }
      var p := Slots(One(n), v)[k - |front|].path;
      PutSlot(One(n), v, k - |front|, r);
      EachAt(n, j.items, c, k - |front|);
      PutChild(j, c - 1, p, Str(r));
      EachPutLast(n, j.items, c, k - |front|, r, Put(v, p, Str(r)));
    }
  }

  lemma EachLength(n: Node, es: seq<Elem>, c: nat)
    requires 0 < c <= |es|
    ensures |EachSlots(n, es, c)| == |EachSlots(n, es, c - 1)| + |Slots(One(n), es[c - 1].value)|
  {
    hide Slots;
  }

  lemma EachHead(n: Node, j: Json, c: nat, k: nat)
    requires j.Arr? && c <= |j.items| && k < |EachSlots(n, j.items, c)|
    ensures var p := EachSlots(n, j.items, c)[k].path; p != [] && p[0] < c && HasPath(j, p)
  {
    EachOrdered(n, j, c);
  }

  lemma EachPutBelow(n: Node, j: Json, c: nat, k: nat, r: string)
    requires j.Arr? && 0 < c <= |j.items| && k < |EachSlots(n, j.items, c - 1)|
    requires var s := EachSlots(n, j.items, c - 1)[k];
             && s.path != [] && s.path[0] < c - 1 && HasPath(j, s.path)
             && var j' := Put(j, s.path, Str(r));
                j'.Arr? && |j'.items| == |j.items|
                && EachSlots(n, j'.items, c - 1) == Retext(EachSlots(n, j.items, c - 1), k, r)
    ensures HasPath(j, EachSlots(n, j.items, c)[k].path)
    ensures var j' := Put(j, EachSlots(n, j.items, c)[k].path, Str(r));
            j'.Arr? && |j'.items| == |j.items|
            && EachSlots(n, j'.items, c) == Retext(EachSlots(n, j.items, c), k, r)
  {
    hide Slots, HasPath, Lift, Decode;
    var p := EachSlots(n, j.items, c - 1)[k].path;
    assert EachSlots(n, j.items, c)[k].path == p;
    var j' := Put(j, p, Str(r));
    assert j'.items[c - 1] == j.items[c - 1];
    hide Put;
    RetextFront(EachSlots(n, j.items, c - 1), Lift(c - 1, Slots(One(n), j.items[c - 1].value)), k, r);
  }

  lemma EachPutLast(n: Node, es: seq<Elem>, c: nat, k: nat, r: string, v': Json)
    requires 0 < c <= |es| && k < |Slots(One(n), es[c - 1].value)|
    requires Slots(One(n), v') == Retext(Slots(One(n), es[c - 1].value), k, r)
    ensures var i := |EachSlots(n, es, c - 1)| + k;
            var fs := es[c - 1 := es[c - 1].(value := v')];
            i < |EachSlots(n, es, c)| && EachSlots(n, fs, c) == Retext(EachSlots(n, es, c), i, r)
  {
    hide Slots, Decode, Lift, Retext;
    var fs := es[c - 1 := es[c - 1].(value := v')];
    EachSame(n, es, fs, c - 1);
    RetextBack(EachSlots(n, es, c - 1), c - 1, Slots(One(n), es[c - 1].value), k, r);
    EachAt(n, es, c, k);
  }

  lemma EachAt(n: Node, es: seq<Elem>, c: nat, k: nat)
    requires 0 < c <= |es| && k < |Slots(One(n), es[c - 1].value)|
    ensures var i := |EachSlots(n, es, c - 1)| + k;
            && i < |EachSlots(n, es, c)|
            && EachSlots(n, es, c)[i].path == [c - 1] + Slots(One(n), es[c - 1].value)[k].path
  {
    hide Slots;
  }

  lemma {:induction false} EachSame(n: Node, es: seq<Elem>, fs: seq<Elem>, c: nat)
    requires c <= |es| && c <= |fs| && es[..c] == fs[..c]
    ensures EachSlots(n, es, c) == EachSlots(n, fs, c)
    decreases c
  {
    hide Slots, Lift;
    if c > 0 {
      assert es[c - 1] == es[..c][c - 1] == fs[..c][c - 1] == fs[c - 1];
      assert es[..c - 1] == es[..c][..c - 1] == fs[..c][..c - 1] == fs[..c - 1];
      EachSame(n, es, fs, c - 1);
    }
  }
}
