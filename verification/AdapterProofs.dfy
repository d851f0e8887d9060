/** The projection's slots, and what one changed slot does to a projection. */
module ProjectionProofs {
  import opened Common
  import opened JsonText
  import opened JsonTree
  import opened JsonEdit
  import opened JsonQuery
  import opened JsonSlots
  import opened JsonValue
  import opened Protocol
  import opened Projection

  /* ---------- slots are strings in document order ---------- */

  lemma BlockSlotAt(j: Json, c: nat)
    requires c < |Items(j)| && StrAt(Items(j)[c].value, "text")
    ensures var s := BlockSlot(c, Items(j)[c].value);
            && HasPath(j, s.path) && At(j, s.path) == Get(Items(j)[c].value, "text") && At(j, s.path).Str?
            && s.text == Decode(At(j, s.path).raw)
  {
    hide Decode, Find;
    var b := Items(j)[c].value;
    var t := Find(b.items, "text");
    assert [t][1..] == [] && HasPath(b, [t]) && At(b, [t]) == b.items[t].value;
    assert [c, t][1..] == [t];
  }

  lemma {:induction false} BlocksOrdered(k: BlockKind, j: Json, c: nat)
    requires c <= |Items(j)| && Blocks(k, Items(j), c).Some?
    ensures OrderedSlots(j, Blocks(k, Items(j), c).value.1) && HeadsBelow(Blocks(k, Items(j), c).value.1, c)
  {
    hide Decode, Find, HasPath, At, BlockMembers;
    if c > 0 {
      LastBlock(k, Items(j), c);
      BlocksOrdered(k, j, c - 1);
      BlockSlotAt(j, c - 1);
      hide Blocks, StrAt;
    }
  }

  lemma {:induction false} LevelOrdered(n: Level, j: Json, marshal: JValue -> string)
    requires ProjectLevel(n, j, marshal).Some?
    ensures OrderedSlots(j, ProjectLevel(n, j, marshal).value.slots)
    decreases j, 0
  {
    hide StepOf, Blocks, OrderedSlots, Lift;
    match StepOf(n, j, marshal)
    case Emit(ts) => NoSlots(j);
    case Into(before, key, sub) =>
      SubOrdered(sub, Get(j, key), marshal);
      LiftSlots(j, Find(j.items, key), ProjectSub(sub, Get(j, key), marshal).value.slots);
  }

  lemma NoSlots(j: Json)
    ensures OrderedSlots<()>(j, []) && HeadsBelow<()>([], 0)
  {
  }

  lemma {:induction false} SubOrdered(sub: Sub, v: Json, marshal: JValue -> string)
    requires ProjectSub(sub, v, marshal).Some?
    ensures OrderedSlots(v, ProjectSub(sub, v, marshal).value.slots)
    decreases v, 1
  {
    hide StepOf, Decode, Find;
    match sub
    case Hole(_) =>
    case Holes(_, kind) =>
      BlocksOrdered(kind, v, |v.items|);
    case Sole(_, kind) =>
      BlockSlotAt(v, 0);
      hide HasPath, At;
    case EachItem(n) => ItemsOrdered(n, v, |v.items|, marshal);
    case Down(n) => LevelOrdered(n, v, marshal);
  }

  lemma {:induction false} ItemsOrdered(n: Level, j: Json, c: nat, marshal: JValue -> string)
    requires c <= |Items(j)| && ProjectItems(n, Items(j), c, marshal).Some?
    ensures OrderedSlots(j, ProjectItems(n, Items(j), c, marshal).value.slots)
    ensures HeadsBelow(ProjectItems(n, Items(j), c, marshal).value.slots, c)
    decreases Items(j), c
  {
    hide StepOf, OrderedSlots, HeadsBelow, Lift;
    if c == 0 {
      NoSlots(j);
    } else {
      var v := Items(j)[c - 1].value;
      ItemsOrdered(n, j, c - 1, marshal);
      LevelOrdered(n, v, marshal);
      LiftSlots(j, c - 1, ProjectLevel(n, v, marshal).value.slots);
      JoinSlots(j, ProjectItems(n, Items(j), c - 1, marshal).value.slots, c - 1,
                ProjectLevel(n, v, marshal).value.slots);
    }
  }

  /* ---------- a level does not read what it descends into ---------- */

  predicate SameKind(v: Json, w: Json) {
    && v.Str? == w.Str? && v.Arr? == w.Arr? && v.Obj? == w.Obj? && (v.Lit? || w.Lit? ==> v == w)
    && |Items(v)| == |Items(w)|
  }

  ghost predicate SameElsewhere(j: Json, j': Json, key: string) {
    && j.Obj? && j'.Obj? && Has(j, key) && Has(j', key) && SameKind(Get(j, key), Get(j', key))
    && forall name | name != key ::
         Has(j', name) == Has(j, name) && (Has(j, name) ==> Get(j', name) == Get(j, name))
  }

  lemma ReadsElsewhere(j: Json, j': Json, key: string, name: string)
    requires SameElsewhere(j, j', key) && name != key
    ensures Has(j', name) == Has(j, name) && (Has(j, name) ==> Get(j', name) == Get(j, name))
    ensures TextAt(j', name) == TextAt(j, name) && StrAt(j', name) == StrAt(j, name)
    ensures ArrAt(j', name) == ArrAt(j, name) && ObjAt(j', name) == ObjAt(j, name)
    ensures PresentAt(j', name) == PresentAt(j, name)
  {
    hide Has, Get, TextOf;
  }

  lemma FieldsElsewhere(j: Json, j': Json, key: string)
    requires SameElsewhere(j, j', key)
    ensures Fields(j', key) == Fields(j, key)
  {
    hide Find, Value, SameKind;
    forall name | name != key ensures name in Names(j'.items) <==> name in Names(j.items) {
      assert Has(j', name) == Has(j, name);
    }
  }

  lemma ChatReads(j: Json, j': Json)
    requires j.Obj? && ChatStep(j).Into? && SameElsewhere(j, j', ChatStep(j).key)
    ensures j'.Obj? && ChatStep(j') == ChatStep(j)
  {
    hide Find, Has, Get, TextAt, PresentAt, Fields, Blocks, Value, AnyOutput;
    FieldsElsewhere(j, j', "content");
    ReadsElsewhere(j, j', "content", "role");
    ReadsElsewhere(j, j', "content", "tool_call_id");
    ReadsElsewhere(j, j', "content", "tool_calls");
    hide SameElsewhere;
  }

  lemma MessageReads(j: Json, j': Json)
    requires j.Obj? && MessageStep(j).Into? && SameElsewhere(j, j', MessageStep(j).key)
    ensures j'.Obj? && MessageStep(j') == MessageStep(j)
  {
    hide Find, Has, Get, TextAt, Blocks, Value, AnyOutput;
    ReadsElsewhere(j, j', "content", "role");
    ReadsElsewhere(j, j', "content", "type");
    hide SameElsewhere;
  }

  lemma OutputReads(j: Json, j': Json)
    requires j.Obj? && OutputStep(j).Into? && SameElsewhere(j, j', OutputStep(j).key)
    ensures j'.Obj? && OutputStep(j') == OutputStep(j)
  {
    hide Find, Has, Get, TextAt, AnyOutput, OutputType;
    ReadsElsewhere(j, j', "output", "call_id");
    ReadsElsewhere(j, j', "output", "type");
    hide SameElsewhere;
  }

  lemma PartReads(j: Json, j': Json, role: string, marshal: JValue -> string)
    requires j.Obj? && PartStep(j, role, marshal).Into? && SameElsewhere(j, j', PartStep(j, role, marshal).key)
    ensures j'.Obj? && PartStep(j', role, marshal) == PartStep(j, role, marshal)
  {
    hide Find, Has, Get, TextAt, AnyOutput;
    var key := PartStep(j, role, marshal).key;
    if key == "text" {
      ReadsElsewhere(j, j', "text", "thought");
    } else {
      ReadsElsewhere(j, j', "functionResponse", "text");
      ReadsElsewhere(j, j', "functionResponse", "functionCall");
    }
    hide SameElsewhere;
  }

  lemma ClaudeReads(j: Json, j': Json, role: string, marshal: JValue -> string)
    requires j.Obj? && ClaudeBlockStep(j, role, marshal).Into?
             && SameElsewhere(j, j', ClaudeBlockStep(j, role, marshal).key)
    ensures j'.Obj? && ClaudeBlockStep(j', role, marshal) == ClaudeBlockStep(j, role, marshal)
  {
    hide Find, Has, Get, TextAt, AnyOutput;
    var key := ClaudeBlockStep(j, role, marshal).key;
    assert "text"[1] != "type"[1];
    ReadsElsewhere(j, j', key, "type");
    ReadsElsewhere(j, j', key, "tool_use_id");
    hide SameElsewhere;
  }

  lemma SystemReads(j: Json, j': Json, key: string)
    requires SameElsewhere(j, j', key)
    ensures key == "contents" ==> GeminiSystem(j') == GeminiSystem(j)
    ensures key == "messages" ==> ClaudeSystem(j') == ClaudeSystem(j)
  {
    hide Find, Has, Get, AnyOutput, SystemParts, Blocks;
    if key == "contents" {
      ReadsElsewhere(j, j', key, "systemInstruction");
      ReadsElsewhere(j, j', key, "system_instruction");
    }
    if key == "messages" {
      assert "messages"[0] != "system"[0];
      ReadsElsewhere(j, j', key, "system");
    }
    hide SameElsewhere;
  }

  lemma StepReads(n: Level, j: Json, j': Json, marshal: JValue -> string)
    requires StepOf(n, j, marshal).Into? && SameElsewhere(j, j', StepOf(n, j, marshal).key)
    requires n.ResponsesRoot? ==> AnyOutput(Get(j', "input")) == AnyOutput(Get(j, "input"))
    ensures StepOf(n, j', marshal) == StepOf(n, j, marshal)
  {
    hide Find, Has, Get, TextAt, AnyOutput, ChatStep, MessageStep, OutputStep, PartStep, ClaudeBlockStep,
         GeminiSystem, ClaudeSystem;
    var key := StepOf(n, j, marshal).key;
    match n
    case ChatItem => ChatReads(j, j');
    case MessageItem => MessageReads(j, j');
    case OutputItem => OutputReads(j, j');
    case ClaudeContent(role) => ClaudeReads(j, j', role, marshal);
    case GeminiPiece(role) => PartReads(j, j', role, marshal);
    case ClaudeRoot => SystemReads(j, j', key);
    case GeminiRoot => SystemReads(j, j', key);
    case GeminiItem => ReadsElsewhere(j, j', key, "role");
    case ClaudeItem => ReadsElsewhere(j, j', key, "role");
    case OutputBlock(_) =>
      assert "text"[1] != "type"[1];
      ReadsElsewhere(j, j', key, "type");
    case GeminiReply =>
      ReadsElsewhere(j, j', key, "id");
      ReadsElsewhere(j, j', key, "name");
    case _ =>
  }

  /* ---------- one changed slot ---------- */

  function RetextOne(p: Projected, k: nat, r: string): Projected
    requires k < |p.slots|
  {
    Projected(p.templates, Retext(p.slots, k, r))
  }

  /** Rewriting the text of one block keeps its other members. */
  lemma BlockPut(kind: BlockKind, b: Json, r: string)
    requires BlockMembers(kind, b).Some?
    ensures var b' := SetChild(b, Find(b.items, "text"), Str(r));
            && BlockMembers(kind, b') == BlockMembers(kind, b)
            && StrAt(b', "text") && (forall c :: BlockSlot(c, b') == BlockSlot(c, b).(text := Decode(r)))
  {
    BlockReads(b, r);
    hide Find, Decode, Value, TextAt, Fields, SetChild, StrAt;
  }

  lemma BlockReads(b: Json, r: string)
    requires b.Obj? && StrAt(b, "text")
    ensures var b' := SetChild(b, Find(b.items, "text"), Str(r));
            && b'.Obj? && TextAt(b', "type") == TextAt(b, "type") && Fields(b', "text") == Fields(b, "text")
            && StrAt(b', "text") && TextAt(b', "text") == Decode(r) && Find(b'.items, "text") == Find(b.items, "text")
  {
    hide Find, Decode, Value, Fields;
    var t := Find(b.items, "text");
    var b' := SetChild(b, t, Str(r));
    ChildSameElsewhere(b, "text", Str(r));
    assert "text"[1] != "type"[1];
    ReadsElsewhere(b, b', "text", "type");
    FieldsElsewhere(b, b', "text");
    SetChildFind(b, t, Str(r), "text");
    hide SameElsewhere;
  }

  lemma ChildSameElsewhere(j: Json, key: string, v: Json)
    requires Has(j, key) && SameKind(Get(j, key), v)
    ensures SameElsewhere(j, SetChild(j, Find(j.items, key), v), key)
  {
    hide Find, SameKind;
    var j' := SetChild(j, Find(j.items, key), v);
    SetChildFind(j, Find(j.items, key), v, key);
    forall name | name != key
      ensures Has(j', name) == Has(j, name) && (Has(j, name) ==> Get(j', name) == Get(j, name)) {
      SetChildFind(j, Find(j.items, key), v, name);
      if Has(j, name) { FindDiffers(j.items, key, name); }
    }
  }

  lemma {:induction false} BlocksSame(k: BlockKind, es: seq<Elem>, fs: seq<Elem>, c: nat)
    requires c <= |es| && c <= |fs| && es[..c] == fs[..c]
    ensures Blocks(k, es, c) == Blocks(k, fs, c)
  {
    hide BlockMembers, BlockSlot;
    if c > 0 {
      assert es[c - 1] == es[..c][c - 1] == fs[..c][c - 1] == fs[c - 1];
      assert es[..c - 1] == es[..c][..c - 1] == fs[..c][..c - 1] == fs[..c - 1];
      BlocksSame(k, es, fs, c - 1);
    }
  }

  lemma {:induction false} BlockSlots(kind: BlockKind, es: seq<Elem>, c: nat, k: nat)
    requires k < c <= |es| && Blocks(kind, es, c).Some?
    ensures BlockMembers(kind, es[k].value).Some? && |Blocks(kind, es, c).value.1| == c
    ensures Blocks(kind, es, c).value.1[k] == BlockSlot(k, es[k].value)
  {
    hide BlockMembers, BlockSlot;
    BlocksCount(kind, es, c - 1);
    if k < c - 1 { BlockSlots(kind, es, c - 1, k); }
  }

  lemma {:induction false} BlocksPut(kind: BlockKind, es: seq<Elem>, c: nat, k: nat, r: string, b': Json)
    requires k < c <= |es| && Blocks(kind, es, c).Some? && |Blocks(kind, es, c).value.1| == c
    requires StrAt(es[k].value, "text") && StrAt(b', "text")
    requires BlockMembers(kind, b') == BlockMembers(kind, es[k].value)
    requires BlockSlot(k, b') == BlockSlot(k, es[k].value).(text := Decode(r))
    ensures var fs := es[k := es[k].(value := b')];
            Blocks(kind, fs, c) == Some((Blocks(kind, es, c).value.0, Retext(Blocks(kind, es, c).value.1, k, r)))
  {
    hide BlockMembers, BlockSlot, Decode, StrAt, Retext;
    var fs := es[k := es[k].(value := b')];
    BlocksCount(kind, es, c - 1);
    var front, last := Blocks(kind, es, c - 1).value, es[c - 1].value;
    LastBlock(kind, es, c);
    if k < c - 1 {
      BlocksPut(kind, es, c - 1, k, r, b');
      assert fs[c - 1] == es[c - 1];
      RetextFront(front.1, [BlockSlot(c - 1, last)], k, r);
    } else {
      BlocksSame(kind, es, fs, c - 1);
      RetextLast(front.1, BlockSlot(c - 1, last), r);
    }
    LastBlock(kind, fs, c);
    hide Blocks;
  }

  lemma LastBlock(kind: BlockKind, es: seq<Elem>, c: nat)
    requires 0 < c <= |es|
    ensures var front, last := Blocks(kind, es, c - 1), BlockMembers(kind, es[c - 1].value);
            && (last.Some? ==> StrAt(es[c - 1].value, "text"))
            && Blocks(kind, es, c) == if front.None? || last.None? then None
                 else Some((front.value.0 + [last.value], front.value.1 + [BlockSlot(c - 1, es[c - 1].value)]))
  {
    hide BlockSlot;
  }

  lemma RetextLast(front: seq<TextSlot>, s: TextSlot, r: string)
    ensures Retext(front + [s], |front|, r) == front + [s.(text := Decode(r))]
  {
    hide Decode;
  }

  lemma RetextSole(s: TextSlot, r: string)
    ensures Retext([s], 0, r) == [s.(text := Decode(r))]
  {
    hide Decode;
  }

  lemma PutSameKind(v: Json, p: Path, r: string)
    requires HasPath(v, p) && At(v, p).Str?
    ensures SameKind(v, Put(v, p, Str(r)))
  {
  }

  /** The string a slot names is not the "type" of the item it lies in. */
  lemma {:induction false} ItemPath(n: Level, es: seq<Elem>, c: nat, k: nat, marshal: JValue -> string)
    requires n.OutputItem? || n.MessageItem?
    requires c <= |es| && ProjectItems(n, es, c, marshal).Some? && k < |ProjectItems(n, es, c, marshal).value.slots|
    ensures var p := ProjectItems(n, es, c, marshal).value.slots[k].path;
            && |p| > 1 && p[0] < c && es[p[0]].value.Obj?
            && (p[1] == Find(es[p[0]].value.items, "output") || p[1] == Find(es[p[0]].value.items, "content"))
  {
    hide Find, MessageStep, OutputStep;
    if k < |ProjectItems(n, es, c - 1, marshal).value.slots| {
      ItemPath(n, es, c - 1, k, marshal);
    } else {
      ItemKey(n, es[c - 1].value, marshal);
    }
  }

  lemma ItemKey(n: Level, j: Json, marshal: JValue -> string)
    requires (n.OutputItem? || n.MessageItem?) && StepOf(n, j, marshal).Into?
    ensures j.Obj? && (StepOf(n, j, marshal).key == "output" || StepOf(n, j, marshal).key == "content")
  {
    hide Find, Has, TextAt, Blocks, OutputType;
  }

  lemma TypeKept(input: Json, n: Level, k: nat, r: string, marshal: JValue -> string)
    requires input.Arr? && (n.OutputItem? || n.MessageItem?)
    requires ProjectItems(n, input.items, |input.items|, marshal).Some?
    requires k < |ProjectItems(n, input.items, |input.items|, marshal).value.slots|
    requires var p := ProjectItems(n, input.items, |input.items|, marshal).value.slots[k].path;
             HasPath(input, p) && At(input, p).Str?
    ensures var p := ProjectItems(n, input.items, |input.items|, marshal).value.slots[k].path;
            AnyOutput(Put(input, p, Str(r))) == AnyOutput(input)
  {
    hide ProjectItems, Find, OutputType;
    var p := ProjectItems(n, input.items, |input.items|, marshal).value.slots[k].path;
    ItemPath(n, input.items, |input.items|, k, marshal);
    var item := input.items[p[0]].value;
    var v := Put(item.items[p[1]].value, p[2..], Str(r));
    assert p[1..][0] == p[1] && p[1..][1..] == p[2..];
    var item' := SetChild(item, p[1], v);
    assert Put(input, p, Str(r)) == SetChild(input, p[0], item');
    SetChildFind(item, p[1], v, "type");
    assert "type" != "output" && "type" != "content";
    if Has(item, "type") && Has(item, "output") { FindDiffers(item.items, "output", "type"); }
    if Has(item, "type") && Has(item, "content") { FindDiffers(item.items, "content", "type"); }
    assert TextAt(item', "type") == TextAt(item, "type");
    forall i | 0 <= i < |input.items|
      ensures TextAt(Items(SetChild(input, p[0], item'))[i].value, "type") == TextAt(input.items[i].value, "type") {}
    hide TextAt;
  }

  lemma {:induction false} LevelPut(n: Level, j: Json, k: nat, r: string, marshal: JValue -> string)
    requires ProjectLevel(n, j, marshal).Some? && k < |ProjectLevel(n, j, marshal).value.slots|
    ensures HasPath(j, ProjectLevel(n, j, marshal).value.slots[k].path)
    ensures ProjectLevel(n, Put(j, ProjectLevel(n, j, marshal).value.slots[k].path, Str(r)), marshal)
            == Some(RetextOne(ProjectLevel(n, j, marshal).value, k, r))
    decreases j, 0
  {
    hide StepOf, Decode, Find, HasPath, Put, Lift, Retext;
    var step := StepOf(n, j, marshal);
    SubPut(step.sub, Get(j, step.key), k, r, marshal);
    LevelPutInto(n, j, k, r, marshal);
  }

  lemma LevelPutInto(n: Level, j: Json, k: nat, r: string, marshal: JValue -> string)
    requires ProjectLevel(n, j, marshal).Some? && StepOf(n, j, marshal).Into?
    requires var step := StepOf(n, j, marshal);
             && Has(j, step.key)
             && ProjectSub(step.sub, Get(j, step.key), marshal).Some?
             && var q := ProjectSub(step.sub, Get(j, step.key), marshal).value;
                && k < |q.slots| && HasPath(Get(j, step.key), q.slots[k].path)
                && ProjectSub(step.sub, Put(Get(j, step.key), q.slots[k].path, Str(r)), marshal)
                   == Some(RetextOne(q, k, r))
    ensures k < |ProjectLevel(n, j, marshal).value.slots|
    ensures HasPath(j, ProjectLevel(n, j, marshal).value.slots[k].path)
    ensures ProjectLevel(n, Put(j, ProjectLevel(n, j, marshal).value.slots[k].path, Str(r)), marshal)
            == Some(RetextOne(ProjectLevel(n, j, marshal).value, k, r))
  {
    hide StepOf, Decode, Find, HasPath, Put, At, ProjectSub, Retext;
    var step := StepOf(n, j, marshal);
    var key, v := step.key, Get(j, step.key);
    var q := ProjectSub(step.sub, v, marshal).value;
    var i, p := Find(j.items, key), q.slots[k].path;
    var v' := Put(v, p, Str(r));
    SubOrdered(step.sub, v, marshal);
    SlotIsStr(v, q.slots, k);
    PutSameKind(v, p, r);
    ChildSameElsewhere(j, key, v');
    SetChildFind(j, i, v', key);
    PutChild(j, i, p, Str(r));
    RootKept(n, j, k, r, marshal);
    StepReads(n, j, SetChild(j, i, v'), marshal);
    assert ProjectLevel(n, j, marshal).value.slots[k].path == [i] + p;
    LiftRetext(i, q.slots, k, r);
  }

  lemma LiftRetext(i: nat, ss: seq<TextSlot>, k: nat, r: string)
    requires k < |ss|
    ensures Lift(i, Retext(ss, k, r)) == Retext(Lift(i, ss), k, r)
  {
    hide Decode;
  }

  lemma RootKept(n: Level, j: Json, k: nat, r: string, marshal: JValue -> string)
    requires StepOf(n, j, marshal).Into? && Has(j, StepOf(n, j, marshal).key)
    requires var step := StepOf(n, j, marshal);
             && ProjectSub(step.sub, Get(j, step.key), marshal).Some?
             && var q := ProjectSub(step.sub, Get(j, step.key), marshal).value;
                && k < |q.slots| && HasPath(Get(j, step.key), q.slots[k].path)
                   && At(Get(j, step.key), q.slots[k].path).Str?
    ensures n.ResponsesRoot? ==>
              var step := StepOf(n, j, marshal);
              var q := ProjectSub(step.sub, Get(j, step.key), marshal).value;
              step.key == "input"
                  && AnyOutput(Put(Get(j, "input"), q.slots[k].path, Str(r))) == AnyOutput(Get(j, "input"))
  {
    hide Find, Put, At, HasPath, AnyOutput, ProjectItems;
    if n.ResponsesRoot? {
      TypeKept(Get(j, "input"), StepOf(n, j, marshal).sub.level, k, r, marshal);
    }
  }

  lemma {:induction false} SubPut(sub: Sub, v: Json, k: nat, r: string, marshal: JValue -> string)
    requires ProjectSub(sub, v, marshal).Some? && k < |ProjectSub(sub, v, marshal).value.slots|
    ensures HasPath(v, ProjectSub(sub, v, marshal).value.slots[k].path)
    ensures ProjectSub(sub, Put(v, ProjectSub(sub, v, marshal).value.slots[k].path, Str(r)), marshal)
            == Some(RetextOne(ProjectSub(sub, v, marshal).value, k, r))
    decreases v, 1
  {
    hide Decode, Find, BlockMembers;
    match sub
    case Hole(_) => RetextSole(Slot([], Decode(v.raw), ()), r);
    case Holes(_, kind) => HolesPut(sub, v, k, r, marshal);
    case Sole(_, kind) => SolePut(sub, v, r, marshal);
    case EachItem(n) =>
      ItemsPut(n, v, |v.items|, k, r, marshal);
    case Down(n) =>
      LevelPut(n, v, k, r, marshal);
  }

  lemma PutBlock(v: Json, k: nat, r: string)
    requires v.Arr? && k < |v.items| && StrAt(v.items[k].value, "text")
    ensures var b := v.items[k].value;
            && HasPath(v, BlockSlot(k, b).path)
            && Put(v, BlockSlot(k, b).path, Str(r)) == SetChild(v, k, SetChild(b, Find(b.items, "text"), Str(r)))
  {
    hide Find;
    var b := v.items[k].value;
    var t := Find(b.items, "text");
    PutChild(b, t, [], Str(r));
    assert [t] + [] == [t] && [k] + [t] == [k, t];
    PutChild(v, k, [t], Str(r));
  }

  lemma HolesPut(sub: Sub, v: Json, k: nat, r: string, marshal: JValue -> string)
    requires sub.Holes? && ProjectSub(sub, v, marshal).Some? && k < |ProjectSub(sub, v, marshal).value.slots|
    ensures HasPath(v, ProjectSub(sub, v, marshal).value.slots[k].path)
    ensures ProjectSub(sub, Put(v, ProjectSub(sub, v, marshal).value.slots[k].path, Str(r)), marshal)
            == Some(RetextOne(ProjectSub(sub, v, marshal).value, k, r))
  {
    BlocksCount(sub.kind, v.items, |v.items|);
    BlockSlots(sub.kind, v.items, |v.items|, k);
    var b := v.items[k].value;
    assert StrAt(b, "text");
    BlockPut(sub.kind, b, r);
    PutBlock(v, k, r);
    var b' := SetChild(b, Find(b.items, "text"), Str(r));
    hide Decode, Find, BlockMembers, Blocks, BlockSlot, HasPath, Put, Retext, StrAt;
    BlocksPut(sub.kind, v.items, |v.items|, k, r, b');
  }

  lemma SolePut(sub: Sub, v: Json, r: string, marshal: JValue -> string)
    requires sub.Sole? && ProjectSub(sub, v, marshal).Some?
    ensures HasPath(v, ProjectSub(sub, v, marshal).value.slots[0].path)
    ensures ProjectSub(sub, Put(v, ProjectSub(sub, v, marshal).value.slots[0].path, Str(r)), marshal)
            == Some(RetextOne(ProjectSub(sub, v, marshal).value, 0, r))
  {
    var b := v.items[0].value;
    assert StrAt(b, "text");
    BlockPut(sub.kind, b, r);
    PutBlock(v, 0, r);
    var b' := SetChild(b, Find(b.items, "text"), Str(r));
    assert BlockSlot(0, b') == BlockSlot(0, b).(text := Decode(r));
    assert Items(SetChild(v, 0, b'))[0].value == b';
    hide SetChild, Decode, Find, BlockMembers, Blocks, BlockSlot, HasPath, Put, StrAt;
    RetextSole(BlockSlot(0, v.items[0].value), r);
    hide Retext;
  }

  lemma {:induction false} ItemsPut(n: Level, j: Json, c: nat, k: nat, r: string, marshal: JValue -> string)
    requires j.Arr? && c <= |j.items|
    requires ProjectItems(n, j.items, c, marshal).Some? && k < |ProjectItems(n, j.items, c, marshal).value.slots|
    ensures HasPath(j, ProjectItems(n, j.items, c, marshal).value.slots[k].path)
    ensures var j' := Put(j, ProjectItems(n, j.items, c, marshal).value.slots[k].path, Str(r));
            && j'.Arr? && |j'.items| == |j.items|
            && ProjectItems(n, j'.items, c, marshal)
               == Some(RetextOne(ProjectItems(n, j.items, c, marshal).value, k, r))
    decreases j.items, c
  {
    hide HasPath, Put, Lift, Retext, ProjectLevel, Decode;
    var front, v := ProjectItems(n, j.items, c - 1, marshal).value, j.items[c - 1].value;
    var last := ProjectLevel(n, v, marshal).value;
    ItemsAt(n, j, c, k, marshal);
    if k < |front.slots| {
      ItemsPut(n, j, c - 1, k, r, marshal);
      ItemsPutBelow(n, j, c, k, r, marshal);
    } else {
      var p := last.slots[k - |front.slots|].path;
      LevelPut(n, v, k - |front.slots|, r, marshal);
      PutChild(j, c - 1, p, Str(r));
      ItemsPutLast(n, j.items, c, k - |front.slots|, r, Put(v, p, Str(r)), marshal);
    }
  }

  lemma ItemsAt(n: Level, j: Json, c: nat, k: nat, marshal: JValue -> string)
    requires j.Arr? && 0 < c <= |j.items|
    requires ProjectItems(n, j.items, c, marshal).Some? && k < |ProjectItems(n, j.items, c, marshal).value.slots|
    ensures ProjectItems(n, j.items, c - 1, marshal).Some? && ProjectLevel(n, j.items[c - 1].value, marshal).Some?
    ensures var all := ProjectItems(n, j.items, c, marshal).value.slots;
            var front, last := ProjectItems(n, j.items, c - 1, marshal).value.slots,
                ProjectLevel(n, j.items[c - 1].value, marshal).value.slots;
            && |all| == |front| + |last|
            && all[k].path == (if k < |front| then front[k].path else [c - 1] + last[k - |front|].path)
            && (k < |front| ==> front[k].path != [] && front[k].path[0] < c - 1 && HasPath(j, front[k].path))
  {
    hide StepOf, Decode, HasPath, At, ProjectLevel, OrderedSlots;
    ItemsOrdered(n, j, c - 1, marshal);
    var front := ProjectItems(n, j.items, c - 1, marshal).value.slots;
    if k < |front| {
      InOrderAreSlots(j, front);
      SlotIsStr(j, front, k);
    }
  }

  lemma {:induction false} ItemsSame(n: Level, es: seq<Elem>, fs: seq<Elem>, c: nat, marshal: JValue -> string)
    requires c <= |es| && c <= |fs| && es[..c] == fs[..c]
    ensures ProjectItems(n, es, c, marshal) == ProjectItems(n, fs, c, marshal)
  {
    hide ProjectLevel, Lift;
    if c > 0 {
      assert es[c - 1] == es[..c][c - 1] == fs[..c][c - 1] == fs[c - 1];
      assert es[..c - 1] == es[..c][..c - 1] == fs[..c][..c - 1] == fs[..c - 1];
      ItemsSame(n, es, fs, c - 1, marshal);
    }
  }

  lemma ItemsPutBelow(n: Level, j: Json, c: nat, k: nat, r: string, marshal: JValue -> string)
    requires j.Arr? && 0 < c <= |j.items| && ProjectItems(n, j.items, c, marshal).Some?
    requires ProjectItems(n, j.items, c - 1, marshal).Some?
             && k < |ProjectItems(n, j.items, c - 1, marshal).value.slots|
    requires var p := ProjectItems(n, j.items, c - 1, marshal).value.slots[k].path;
             && p != [] && p[0] < c - 1 && HasPath(j, p)
             && k < |ProjectItems(n, j.items, c, marshal).value.slots|
             && ProjectItems(n, j.items, c, marshal).value.slots[k].path == p
             && var j' := Put(j, p, Str(r));
                && j'.Arr? && |j'.items| == |j.items|
                && ProjectItems(n, j'.items, c - 1, marshal)
                   == Some(RetextOne(ProjectItems(n, j.items, c - 1, marshal).value, k, r))
    ensures var j' := Put(j, ProjectItems(n, j.items, c, marshal).value.slots[k].path, Str(r));
            ProjectItems(n, j'.items, c, marshal) == Some(RetextOne(ProjectItems(n, j.items, c, marshal).value, k, r))
  {
    hide ProjectLevel, HasPath, Decode;
    var p := ProjectItems(n, j.items, c - 1, marshal).value.slots[k].path;
    var j' := Put(j, p, Str(r));
    assert j'.items[c - 1] == j.items[c - 1];
    hide Put, Lift;
    RetextFront(ProjectItems(n, j.items, c - 1, marshal).value.slots,
                Lift(c - 1, ProjectLevel(n, j.items[c - 1].value, marshal).value.slots), k, r);
  }

  lemma ItemsPutLast(n: Level, es: seq<Elem>, c: nat, k: nat, r: string, v': Json, marshal: JValue -> string)
    requires 0 < c <= |es| && ProjectItems(n, es, c, marshal).Some?
    requires ProjectLevel(n, es[c - 1].value, marshal).Some?
             && k < |ProjectLevel(n, es[c - 1].value, marshal).value.slots|
    requires ProjectLevel(n, v', marshal) == Some(RetextOne(ProjectLevel(n, es[c - 1].value, marshal).value, k, r))
    ensures var fs := es[c - 1 := es[c - 1].(value := v')];
            var i := |ProjectItems(n, es, c - 1, marshal).value.slots| + k;
            && i < |ProjectItems(n, es, c, marshal).value.slots|
            && ProjectItems(n, fs, c, marshal) == Some(RetextOne(ProjectItems(n, es, c, marshal).value, i, r))
  {
    hide ProjectLevel, Decode, Lift, Retext;
    var fs := es[c - 1 := es[c - 1].(value := v')];
    ItemsSame(n, es, fs, c - 1, marshal);
    RetextBack(ProjectItems(n, es, c - 1, marshal).value.slots, c - 1,
               ProjectLevel(n, es[c - 1].value, marshal).value.slots, k, r);
  }
}
