/** Whatever the provider, a block that finds no instruction text becomes the only one. */
module PromptSpots {
  import opened Common
  import opened JsonText
  import opened JsonTree
  import opened JsonEdit
  import opened JsonQuery
  import opened JsonSlots
  import opened JsonGrow
  import opened JsonBuild
  import opened Protocol
  import opened PromptSites
  import opened PromptSitesProofs
  import opened PromptGrowth

  predicate Lonely(to: Target, j: Json, s: Spot, raw: string) {
    SpotFits(j, s) && Texts(to, Applied(j, s, raw)) == [Slot(NewPath(j, s), Decode(raw), PROMPT)]
  }

  lemma LonelyAdd(to: Target, j: Json, p: Path, front: bool, e: Elem, hole: Path, f: Elem, raw: string)
    requires HasPath(j, p) && (At(j, p).Arr? || (At(j, p).Obj? && At(j, p).items != []))
    requires WfElem(e, At(j, p).Obj?) && e.before == e.after == "" && HasPath(e.value, hole)
             && At(e.value, hole) == BLANK
    requires f == e.(value := Put(e.value, hole, Str(raw)))
    requires Texts(to, Put(j, p, Added(At(j, p), front, f)))
             == [Slot(Inside(p, if front then 0 else |At(j, p).items|, hole), Decode(raw), PROMPT)]
    ensures Lonely(to, j, Add(p, front, e, hole), raw)
  {
    hide Decode, Put, HasPath, WfElem, Added, Texts, At;
  }

  /* ---------- the written items are well formed ---------- */

  lemma BlankAt(j: Json, k: nat)
    requires k < |Items(j)| && Items(j)[k].value == BLANK
    ensures HasPath(j, [k]) && At(j, [k]) == BLANK
  {
    ChildAt(j, k, []);
    assert [k] + [] == [k];
  }

  /** Filling a hole that is a direct member. */
  lemma HoleFilled(j: Json, k: nat, w: Json)
    requires k < |Items(j)| && Items(j)[k].value == BLANK
    ensures HasPath(j, [k]) && At(j, [k]) == BLANK && Put(j, [k], w) == SetChild(j, k, w)
  {
    BlankAt(j, k);
    assert [k][1..] == [];
    PutStep(j, [k], w);
  }

  lemma PartWf(kind: string, raw: string)
    ensures var part := TextPart(kind, BLANK);
            && WfElem(Item(part), false) && HasPath(part, TextHole(kind)) && At(part, TextHole(kind)) == BLANK
            && Put(part, TextHole(kind), Str(raw)) == TextPart(kind, Str(raw))
  {
    hide Encode, WfElem, Field, Item, HasPath, At, Wf, Put;
    BlankWf();
    StrWf(kind);
    FieldValue("text", BLANK);
    FieldPut("text", BLANK, Str(raw));
    var t := Field("type", Str(Encode(kind)));
    if kind == "" {
      OneField("text", BLANK);
      HoleFilled(TextPart(kind, BLANK), 0, Str(raw));
      assert [Field("text", BLANK)][0 := Field("text", Str(raw))] == [Field("text", Str(raw))];
    } else {
      TwoFields("type", Str(Encode(kind)), "text", BLANK);
      HoleFilled(TextPart(kind, BLANK), 1, Str(raw));
      assert [t, Field("text", BLANK)][1 := Field("text", Str(raw))] == [t, Field("text", Str(raw))];
    }
    ItemWf(TextPart(kind, BLANK));
  }

  lemma MessageWf(raw: string)
    ensures var part := MessagePart(BLANK);
            && WfElem(Item(part), false) && HasPath(part, [1]) && At(part, [1]) == BLANK
            && Put(part, [1], Str(raw)) == MessagePart(Str(raw))
  {
    hide Encode, WfElem, Field, Item, HasPath, At, Wf, Put;
    BlankWf();
    StrWf("system");
    TwoFields("role", Str(Encode("system")), "content", BLANK);
    ItemWf(MessagePart(BLANK));
    FieldValue("content", BLANK);
    FieldPut("content", BLANK, Str(raw));
    HoleFilled(MessagePart(BLANK), 1, Str(raw));
    var r := Field("role", Str(Encode("system")));
    assert [r, Field("content", BLANK)][1 := Field("content", Str(raw))] == [r, Field("content", Str(raw))];
  }

  lemma GeminiWf(raw: string)
    ensures var part := GeminiSystem(BLANK);
            && WfElem(Field("systemInstruction", part), true) && HasPath(part, SYSTEM_HOLE)
               && At(part, SYSTEM_HOLE) == BLANK
            && Put(part, SYSTEM_HOLE, Str(raw)) == GeminiSystem(Str(raw))
  {
    var part := TextPart("", BLANK);
    var parts := Arr([Item(part)], "");
    hide Encode, WfElem, Field, HasPath, At, Wf, TextPart, Put;
    PartWf("", raw);
    SoleItemWf(part);
    OneField("parts", parts);
    FieldWf("systemInstruction", GeminiSystem(BLANK));
    FieldValue("parts", parts);
    FieldPut("parts", parts, Arr([Item(TextPart("", Str(raw)))], ""));
    assert [0] + [0] == [0, 0] && [0] + [0, 0] == SYSTEM_HOLE;
    Deeper(parts, 0, [0], Str(raw));
    Deeper(GeminiSystem(BLANK), 0, [0, 0], Str(raw));
    assert [Item(part)][0 := Item(TextPart("", Str(raw)))] == [Item(TextPart("", Str(raw)))];
    var filled := Arr([Item(TextPart("", Str(raw)))], "");
    assert [Field("parts", parts)][0 := Field("parts", filled)] == [Field("parts", filled)];
  }

  lemma Deeper(j: Json, k: nat, p: Path, v: Json)
    requires k < |Items(j)| && HasPath(Items(j)[k].value, p)
    ensures HasPath(j, [k] + p) && At(j, [k] + p) == At(Items(j)[k].value, p)
    ensures Put(j, [k] + p, v) == SetChild(j, k, Put(Items(j)[k].value, p, v))
  {
    ChildAt(j, k, p);
    PutChild(j, k, p, v);
  }

  lemma SoleItemWf(v: Json)
    requires WfElem(Item(v), false)
    ensures Wf(Arr([Item(v)], ""))
  {
  }

  /* ---------- a part in an array ---------- */

  lemma MainPrompting(to: Target, j: Json)
    ensures Prompting(MainWalk(to, j), PartKind(to))
  {
    hide GeminiWalk, GeminiKey, RequestKey, HolderAt, Held;
    GeminiPrompting(GeminiKey(j));
    GeminiPrompting(RequestKey(j));
  }

  lemma GeminiPrompting(key: string)
    ensures Prompting(GeminiWalk(key), "")
  {
  }

  /** An array found under the input member leaves the instructions member alone. */
  lemma LeadStays(to: Target, j: Json, p: Path, v: Json)
    requires p in Arrays(MainWalk(to, j), j) && HasPath(j, p)
    ensures Lead(to, Put(j, p, v)) == Lead(to, j)
  {
    if to.ResponsesTarget? {
      ResponsesWalk(to, j);
      hide MainWalk, Put, HasPath;
      assert "input"[2] != "instructions"[2];
      var next := EachOf(Instruction("input_text"));
      assert Has(j, "input");
      LiftedIn(Find(j.items, "input"), Arrays(next, Get(j, "input")), p);
      if Has(j, "instructions") { FindDiffers(j.items, "instructions", "input"); }
      OtherMember("instructions", Text(PROMPT), j, p, v);
    }
  }

  lemma NewInArray(to: Target, j: Json, p: Path, raw: string)
    requires Supported(to, j) && Texts(to, j) == [] && p in Arrays(MainWalk(to, j), j)
    ensures Lonely(to, j, Add(p, false, Item(TextPart(PartKind(to), BLANK)), TextHole(PartKind(to))), raw)
  {
    var kind, w := PartKind(to), MainWalk(to, j);
    MainPrompting(to, j);
    hide Supported, MainWalk, Arrays, PartKind, TextPart, TextHole, Decode, Put, HasPath, Slots, Encode, At, WfElem,
         Added, Texts, Lead;
    TextsNone(to, j);
    ArraysGrown(w, j, p, kind, raw);
    SoleAt(w, j, p, kind, raw);
    hide Sole;
    LeadStays(to, j, p, Grown(At(j, p), kind, raw));
    MainKept(to, j, p, Grown(At(j, p), kind, raw));
    TextsSole(to, j, Put(j, p, Grown(At(j, p), kind, raw)));
    PartLonely(to, j, p, kind, raw);
  }

  lemma PartLonely(to: Target, j: Json, p: Path, kind: string, raw: string)
    requires HasPath(j, p) && At(j, p).Arr?
    requires Texts(to, Put(j, p, Grown(At(j, p), kind, raw)))
             == [Slot(Inside(p, |At(j, p).items|, TextHole(kind)), Decode(raw), PROMPT)]
    ensures Lonely(to, j, Add(p, false, Item(TextPart(kind, BLANK)), TextHole(kind)), raw)
  {
    PartWf(kind, raw);
    ItemValue(TextPart(kind, BLANK), TextPart(kind, Str(raw)));
    assert Grown(At(j, p), kind, raw) == Added(At(j, p), false, Item(TextPart(kind, Str(raw))));
    hide *;
    LonelyAdd(to, j, p, false, Item(TextPart(kind, BLANK)), TextHole(kind), Item(TextPart(kind, Str(raw))), raw);
  }

  lemma TextsNone(to: Target, j: Json)
    requires Texts(to, j) == []
    ensures Lead(to, j) == [] && Slots(MainWalk(to, j), j) == []
  {
    hide Lead, Slots, MainWalk;
  }

  lemma TextsSole(to: Target, j: Json, k: Json)
    requires Lead(to, k) == [] && MainWalk(to, k) == MainWalk(to, j)
    ensures Texts(to, k) == Slots(MainWalk(to, j), k)
  {
    hide Lead, Slots, MainWalk;
  }

  /* ---------- a new message or field ---------- */

  /** One member replaced. */
  lemma MemberPut(j: Json, key: string, next: Walk, v: Json)
    requires j.Obj? && Has(j, key)
    ensures var k := Find(j.items, key);
            && HasPath(j, [k]) && At(j, [k]) == Get(j, key)
            && Slots(One(Member(key, next)), Put(j, [k], v)) == Lift(k, Slots(next, v))
  {
    var k := Find(j.items, key);
    SetChildFind(j, k, v, key);
    hide Find, Slots, Lift;
    assert [k][1..] == [];
    PutStep(j, [k], v);
    MemberSlots(key, next, SetChild(j, k, v));
  }

  lemma MessagesGrown(m: Json, raw: string)
    requires m.Arr? && m.items != [] && Slots(EachOf(Instruction("text")), m) == []
    ensures Slots(EachOf(Instruction("text")), Added(m, true, Item(MessagePart(Str(raw)))))
            == [Slot(Inside(ROOT, 0, [1]), Decode(raw), PROMPT)]
  {
    MessageText(raw);
    hide Decode, Slots, MessagePart, Added;
    ItemGrown(Instruction("text"), m, true, Item(MessagePart(Str(raw))), [1], Decode(raw));
  }

  lemma MessageLonely(j: Json, p: Path, raw: string)
    requires HasPath(j, p) && At(j, p).Arr?
    requires Texts(ChatTarget, Put(j, p, Added(At(j, p), true, Item(MessagePart(Str(raw))))))
             == [Slot(Inside(p, 0, [1]), Decode(raw), PROMPT)]
    ensures Lonely(ChatTarget, j, Add(p, true, Item(MessagePart(BLANK)), [1]), raw)
  {
    MessageWf(raw);
    ItemValue(MessagePart(BLANK), MessagePart(Str(raw)));
    hide *;
    LonelyAdd(ChatTarget, j, p, true, Item(MessagePart(BLANK)), [1], Item(MessagePart(Str(raw))), raw);
  }

  lemma ItemValue(v: Json, w: Json)
    ensures Item(v).value == v && Item(v).before == Item(v).after == "" && Item(v).(value := w) == Item(w)
  {
  }

  lemma MessageTexts(j: Json, raw: string)
    requires Has(j, "messages") && Get(j, "messages").Arr? && Get(j, "messages").items != []
    requires Slots(EachOf(Instruction("text")), Get(j, "messages")) == []
    ensures var k, m := Find(j.items, "messages"), Get(j, "messages");
            && HasPath(j, [k]) && At(j, [k]) == m
            && Texts(ChatTarget, Put(j, [k], Added(m, true, Item(MessagePart(Str(raw))))))
               == [Slot(Inside([k], 0, [1]), Decode(raw), PROMPT)]
  {
    assert j.Obj?;
    hide *;
    var m := Get(j, "messages");
    var m' := Added(m, true, Item(MessagePart(Str(raw))));
    MemberPut(j, "messages", EachOf(Instruction("text")), m');
    ChatTexts(Put(j, [Find(j.items, "messages")], m'));
    MessagesGrown(m, raw);
    LiftDown([Find(j.items, "messages")], 0, [1], Decode(raw));
    assert [Find(j.items, "messages")][1..] == ROOT;
  }

  lemma MessageAdded(j: Json, raw: string)
    requires Has(j, "messages") && Get(j, "messages").Arr? && Get(j, "messages").items != []
    requires Slots(EachOf(Instruction("text")), Get(j, "messages")) == []
    ensures Lonely(ChatTarget, j, Add([Find(j.items, "messages")], true, Item(MessagePart(BLANK)), [1]), raw)
  {
    assert j.Obj?;
    hide *;
    MessageTexts(j, raw);
    MessageLonely(j, [Find(j.items, "messages")], raw);
  }

  lemma NewMessage(j: Json, raw: string)
    requires Supported(ChatTarget, j) && Texts(ChatTarget, j) == []
    ensures Lonely(ChatTarget, j, Add([Find(j.items, "messages")], true, Item(MessagePart(BLANK)), [1]), raw)
  {
    assert Has(j, "messages") && Get(j, "messages").Arr? && Get(j, "messages").items != [];
    hide *;
    ChatTexts(j);
    MemberSlots("messages", EachOf(Instruction("text")), j);
    MessageAdded(j, raw);
  }

  lemma ChatTexts(j: Json)
    ensures Texts(ChatTarget, j) == Slots(One(Member("messages", EachOf(Instruction("text")))), j)
  {
    hide Slots;
  }

  lemma FieldLonely(to: Target, j: Json, p: Path, key: string, value: Json, hole: Path, filled: Json, raw: string)
    requires HasPath(j, p) && At(j, p).Obj? && At(j, p).items != [] && WfElem(Field(key, value), true)
    requires HasPath(value, hole) && At(value, hole) == BLANK && Put(value, hole, Str(raw)) == filled
    requires Texts(to, Put(j, p, Added(At(j, p), false, Field(key, filled))))
             == [Slot(Inside(p, |At(j, p).items|, hole), Decode(raw), PROMPT)]
    ensures Lonely(to, j, Add(p, false, Field(key, value), hole), raw)
  {
    hide *;
    FieldValue(key, value);
    FieldPut(key, value, filled);
    LonelyAdd(to, j, p, false, Field(key, value), hole, Field(key, filled), raw);
  }

  lemma BlankField(key: string, raw: string)
    ensures WfElem(Field(key, BLANK), true) && HasPath(BLANK, []) && At(BLANK, []) == BLANK
    ensures Put(BLANK, [], Str(raw)) == Str(raw)
  {
    FieldWf(key, BLANK);
    hide Encode, Field, WfElem;
  }

  /** One new root field that is itself the text. */
  lemma RootField(to: Target, j: Json, key: string, raw: string)
    requires j.Obj? && j.items != []
    requires Texts(to, Added(j, false, Field(key, Str(raw))))
             == [Slot(Inside(ROOT, |j.items|, ROOT), Decode(raw), PROMPT)]
    ensures Lonely(to, j, Add([], false, Field(key, BLANK), []), raw)
  {
    RootPath(j, Added(j, false, Field(key, Str(raw))));
    hide *;
    BlankField(key, raw);
    FieldLonely(to, j, [], key, BLANK, [], Str(raw), raw);
  }

  lemma RootPath(j: Json, v: Json)
    ensures HasPath(j, []) && At(j, []) == j && Put(j, [], v) == v
  {
  }

  lemma StringSlots(raw: string)
    ensures Slots(Text(PROMPT), Str(raw)) == [Slot(ROOT, Decode(raw), PROMPT)]
    ensures forall n :: Slots(TextOrEach(PROMPT, n), Str(raw)) == [Slot(ROOT, Decode(raw), PROMPT)]
  {
    hide Decode;
  }

  lemma InstructionsAdded(j: Json, raw: string)
    requires j.Obj? && j.items != [] && !Has(j, "instructions")
    ensures var k := Added(j, false, Field("instructions", Str(raw)));
            && Slots(One(Member("instructions", Text(PROMPT))), k)
               == [Slot(Inside(ROOT, |j.items|, ROOT), Decode(raw), PROMPT)]
            && Slots(One(Member("input", EachOf(Instruction("input_text")))), k)
               == Slots(One(Member("input", EachOf(Instruction("input_text")))), j)
  {
    assert "input"[2] != "instructions"[2];
    hide *;
    var k := Added(j, false, Field("instructions", Str(raw)));
    FieldAdded(j, "instructions", Str(raw), "instructions");
    FieldAdded(j, "instructions", Str(raw), "input");
    MemberSlots("instructions", Text(PROMPT), k);
    StringSlots(raw);
    LiftSole(|j.items|, ROOT, Decode(raw));
    MemberSame("input", EachOf(Instruction("input_text")), j, k);
  }

  lemma NewInstructions(j: Json, raw: string)
    requires j.Obj? && j.items != [] && !Has(j, "instructions") && Texts(ResponsesTarget, j) == []
    ensures Lonely(ResponsesTarget, j, Add([], false, Field("instructions", BLANK), []), raw)
  {
    hide *;
    InstructionsAdded(j, raw);
    ResponsesTexts(j);
    ResponsesTexts(Added(j, false, Field("instructions", Str(raw))));
    RootField(ResponsesTarget, j, "instructions", raw);
  }

  lemma ResponsesTexts(j: Json)
    ensures Texts(ResponsesTarget, j)
            == Slots(One(Member("instructions", Text(PROMPT))), j)
                + Slots(One(Member("input", EachOf(Instruction("input_text")))), j)
  {
    hide Slots;
  }

  lemma ClaudeTexts(j: Json)
    ensures Texts(ClaudeTarget, j) == Slots(One(Member("system", TextOrEach(PROMPT, TextBlock("text")))), j)
  {
    hide Slots;
  }

  lemma NewSystem(j: Json, raw: string)
    requires j.Obj? && j.items != [] && !Has(j, "system")
    ensures Lonely(ClaudeTarget, j, Add([], false, Field("system", BLANK), []), raw)
  {
    hide *;
    var k := Added(j, false, Field("system", Str(raw)));
    FieldAdded(j, "system", Str(raw), "system");
    MemberSlots("system", TextOrEach(PROMPT, TextBlock("text")), k);
    StringSlots(raw);
    LiftSole(|j.items|, ROOT, Decode(raw));
    ClaudeTexts(k);
    RootField(ClaudeTarget, j, "system", raw);
  }

  function WithSystem(g: Json, raw: string): Json
    requires g.Obj?
  {
    Added(g, false, Field("systemInstruction", GeminiSystem(Str(raw))))
  }

  lemma SystemAdded(g: Json, raw: string)
    requires g.Obj? && g.items != [] && !Has(g, "systemInstruction")
    ensures var k := WithSystem(g, raw);
            && Has(k, "systemInstruction") && Find(k.items, "systemInstruction") == |g.items|
            && Get(k, "systemInstruction") == GeminiSystem(Str(raw))
  {
    FieldAdded(g, "systemInstruction", GeminiSystem(Str(raw)), "systemInstruction");
    hide Added, Field, GeminiSystem, Find;
  }

  lemma GeminiSlots(g: Json, raw: string)
    requires g.Obj? && g.items != [] && !Has(g, "systemInstruction")
    ensures var k := WithSystem(g, raw);
            && GeminiKey(k) == "systemInstruction"
            && Slots(GeminiWalk("systemInstruction"), k)
               == [Slot(Inside(ROOT, |g.items|, SYSTEM_HOLE), Decode(raw), PROMPT)]
  {
    SystemAdded(g, raw);
    hide WithSystem, GeminiSystem, Has, Get, Find, Slots, Decode, Lift;
    HasObj(WithSystem(g, raw), "systemInstruction");
    MemberSlots("systemInstruction", One(Member("parts", EachOf(TextBlock("")))), WithSystem(g, raw));
    GeminiText(raw);
    LiftSole(|g.items|, SYSTEM_HOLE, Decode(raw));
  }

  lemma HasObj(j: Json, key: string)
    requires Has(j, key)
    ensures j.Obj? && j.items != []
  {
  }

  lemma GeminiTexts(j: Json)
    ensures Texts(GeminiTarget, j) == Slots(GeminiWalk(GeminiKey(j)), j)
    ensures Texts(AntigravityTarget, j) == Slots(ItemAt(HolderAt(j, RequestKey(j)), GeminiWalk(RequestKey(j))), j)
  {
    hide Slots, GeminiWalk, GeminiKey, RequestKey, HolderAt;
  }

  lemma NewGeminiSystem(j: Json, raw: string)
    requires j.Obj? && j.items != [] && !Has(j, "systemInstruction")
    ensures Lonely(GeminiTarget, j, Add([], false, Field("systemInstruction", GeminiSystem(BLANK)), SYSTEM_HOLE), raw)
  {
    assert WithSystem(j, raw) == Added(j, false, Field("systemInstruction", GeminiSystem(Str(raw))));
    hide *;
    GeminiSlots(j, raw);
    GeminiTexts(WithSystem(j, raw));
    RootPath(j, WithSystem(j, raw));
    GeminiWf(raw);
    FieldLonely(GeminiTarget, j, [], "systemInstruction", GeminiSystem(BLANK), SYSTEM_HOLE, GeminiSystem(Str(raw)),
                raw);
  }

  lemma NewRequestSystem(j: Json, raw: string)
    requires Has(j, "request") && Get(j, "request").Obj? && Get(j, "request").items != []
    requires !Held(j, "systemInstruction")
    ensures Lonely(AntigravityTarget, j,
                   Add([Find(j.items, "request")], false, Field("systemInstruction", GeminiSystem(BLANK)), SYSTEM_HOLE),
                   raw)
  {
    var g := Get(j, "request");
    assert WithSystem(g, raw) == Added(g, false, Field("systemInstruction", GeminiSystem(Str(raw))));
    FirstHolds(j, "systemInstruction");
    hide *;
    RequestTexts(j, Find(j.items, "request"), g, raw);
    GeminiWf(raw);
    FieldLonely(AntigravityTarget, j, [Find(j.items, "request")], "systemInstruction", GeminiSystem(BLANK), SYSTEM_HOLE,
                GeminiSystem(Str(raw)), raw);
  }

  /** No request member has the name, so the first has not. */
  lemma FirstHolds(j: Json, key: string)
    requires Has(j, "request") && !Held(j, key)
    ensures !Has(Get(j, "request"), key)
  {
    NoneHolds(j, key, Find(j.items, "request"));
    hide HolderAt;
  }

  lemma RequestTexts(j: Json, r: nat, g: Json, raw: string)
    requires Has(j, "request") && r == Find(j.items, "request") && g == Get(j, "request")
    requires g.Obj? && g.items != [] && !Has(g, "systemInstruction") && !Held(j, "systemInstruction")
    ensures HasPath(j, [r]) && At(j, [r]) == g
    ensures Texts(AntigravityTarget, Put(j, [r], WithSystem(g, raw)))
            == [Slot(Inside([r], |g.items|, SYSTEM_HOLE), Decode(raw), PROMPT)]
  {
    assert [r][1..] == ROOT;
    assert j.Obj? && r < |j.items| && j.items[r].value == g && NameIs(j.items[r], "request");
    hide *;
    var h := WithSystem(g, raw);
    GeminiSlots(g, raw);
    SystemAdded(g, raw);
    MemberAt(j, r);
    RequestPut(j, r, h);
    GeminiTexts(Put(j, [r], h));
    LiftDown([r], |g.items|, SYSTEM_HOLE, Decode(raw));
  }

  /** The request with the new system instruction is the first that has one. */
  lemma RequestPut(j: Json, r: nat, h: Json)
    requires j.Obj? && r < |j.items| && NameIs(j.items[r], "request") && !Held(j, "systemInstruction")
    requires Has(h, "systemInstruction")
    ensures HasPath(j, [r])
    ensures var k := Put(j, [r], h);
            && RequestKey(k) == "systemInstruction" && HolderAt(k, "systemInstruction") == r
            && Slots(ItemAt(r, GeminiWalk("systemInstruction")), k)
               == Lift(r, Slots(GeminiWalk("systemInstruction"), h))
  {
    hide Find, FindHolder, Has, GeminiWalk, Decode;
    MemberAt(j, r);
    PutStep(j, [r], h);
    assert [r][1..] == [];
    RootPath(Items(j)[r].value, h);
    var k := Put(j, [r], h);
    assert k == SetChild(j, r, h) && k.Obj?;
    assert k.items == j.items[r := j.items[r].(value := h)];
    assert Holds(k.items[r], "systemInstruction");
    forall i | 0 <= i < |j.items| && i != r ensures !Holds(k.items[i], "systemInstruction") {
      NoneHolds(j, "systemInstruction", i);
    }
    hide Holds, Slots, Lift;
    assert FindHolder(k.items, "systemInstruction") == r;
  }

  lemma NoneHolds(j: Json, key: string, i: nat)
    requires j.Obj? && !Held(j, key) && i < |j.items|
    ensures !Holds(j.items[i], key)
  {
    hide Holds;
  }

  /* ---------- every supported payload has a place ---------- */

  lemma SystemArrays(g: Json, key: string)
    requires Has(g, key) && SystemOk(g, key)
    ensures Arrays(GeminiWalk(key), g) != []
  {
    var s := Get(g, key);
    assert Arrays(EachOf(TextBlock("")), Get(s, "parts")) == [[]];
    hide Find, Arrays, SystemOk;
    MemberArrays("parts", EachOf(TextBlock("")), s);
    MemberArrays(key, One(Member("parts", EachOf(TextBlock("")))), g);
  }

  lemma SelectIn<T>(s: seq<T>, first: bool)
    requires s != []
    ensures Select(s, first) in s
  {
  }

  /** A supported payload without instruction text gets exactly one, holding the block. */
  lemma NewSpot(to: Target, j: Json, first: bool, raw: string)
    requires Supported(to, j) && Texts(to, j) == []
    ensures SpotOf(to, j, first).Some? && SpotOf(to, j, first).value.Add?
            && Lonely(to, j, SpotOf(to, j, first).value, raw)
  {
    var arrays := Arrays(MainWalk(to, j), j);
    if arrays != [] {
      hide Supported, Texts, Arrays, Lonely, MainWalk, PartKind, TextPart, TextHole;
      SelectIn(arrays, first);
      NewInArray(to, j, Select(arrays, first), raw);
    } else {
      FallbackSpot(to, j, raw);
      hide Supported, Texts, Arrays, Lonely, MainWalk, Fallback;
    }
  }

  lemma NoSystemKey(g: Json, p: Path)
    requires g.Obj? && !Has(g, GeminiKey(g))
    ensures !Has(g, "systemInstruction")
    ensures NewGemini(g, p) == Some(Add(p, false, Field("systemInstruction", GeminiSystem(BLANK)), SYSTEM_HOLE))
  {
    hide Has, Field, GeminiSystem;
  }

  ghost predicate FallbackOk(to: Target, j: Json, raw: string) {
    Fallback(to, j).Some? && Fallback(to, j).value.Add? && Lonely(to, j, Fallback(to, j).value, raw)
  }

  lemma ChatFallback(j: Json, raw: string)
    requires Supported(ChatTarget, j) && Texts(ChatTarget, j) == [] && Arrays(MainWalk(ChatTarget, j), j) == []
    ensures FallbackOk(ChatTarget, j, raw)
  {
    NewMessage(j, raw);
    hide Texts, Lonely, Find, Arrays;
  }

  lemma ResponsesFallback(j: Json, raw: string)
    requires Supported(ResponsesTarget, j) && Texts(ResponsesTarget, j) == []
             && Arrays(MainWalk(ResponsesTarget, j), j) == []
    ensures FallbackOk(ResponsesTarget, j, raw)
  {
    HasObj(j, "input");
    if Has(j, "instructions") { InstructionsSeen(j); }
    hide Texts, Lonely, Find, Arrays;
    NewInstructions(j, raw);
  }

  lemma ClaudeFallback(j: Json, raw: string)
    requires Supported(ClaudeTarget, j) && Texts(ClaudeTarget, j) == [] && Arrays(MainWalk(ClaudeTarget, j), j) == []
    ensures FallbackOk(ClaudeTarget, j, raw)
  {
    HasObj(j, "messages");
    if Has(j, "system") { SystemSeen(j); }
    hide Texts, Lonely, Find, Arrays;
    NewSystem(j, raw);
  }

  lemma GeminiFallback(j: Json, raw: string)
    requires Supported(GeminiTarget, j) && Texts(GeminiTarget, j) == [] && Arrays(MainWalk(GeminiTarget, j), j) == []
    ensures FallbackOk(GeminiTarget, j, raw)
  {
    assert ROOT == [];
    hide *;
    GeminiCase(j);
    NoSystemKey(j, ROOT);
    NewGeminiSystem(j, raw);
  }

  lemma GeminiCase(j: Json)
    requires Supported(GeminiTarget, j) && Arrays(MainWalk(GeminiTarget, j), j) == []
    ensures j.Obj? && j.items != [] && !Has(j, GeminiKey(j)) && Fallback(GeminiTarget, j) == NewGemini(j, ROOT)
  {
    HasObj(j, "contents");
    hide Arrays, Find, GeminiKey;
    if Has(j, GeminiKey(j)) { SystemArrays(j, GeminiKey(j)); }
  }

  lemma AntigravityFallback(j: Json, raw: string)
    requires Supported(AntigravityTarget, j) && Texts(AntigravityTarget, j) == []
    requires Arrays(MainWalk(AntigravityTarget, j), j) == []
    ensures FallbackOk(AntigravityTarget, j, raw)
  {
    if Held(j, RequestKey(j)) { RequestArrays(j); }
    RequestCase(j);
    hide *;
    NewRequestSystem(j, raw);
    IsFallback(j, raw);
  }

  lemma IsFallback(j: Json, raw: string)
    requires Fallback(AntigravityTarget, j).Some? && Fallback(AntigravityTarget, j).value.Add?
    requires Lonely(AntigravityTarget, j, Fallback(AntigravityTarget, j).value, raw)
    ensures FallbackOk(AntigravityTarget, j, raw)
  {
    hide Fallback, Lonely;
  }

  lemma RequestCase(j: Json)
    requires Supported(AntigravityTarget, j) && !Held(j, RequestKey(j))
    ensures !Held(j, "systemInstruction") && Has(j, "request")
    ensures Get(j, "request").Obj? && Get(j, "request").items != []
    ensures Fallback(AntigravityTarget, j)
            == Some(Add([Find(j.items, "request")], false, Field("systemInstruction", GeminiSystem(BLANK)),
                        SYSTEM_HOLE))
  {
    hide Find, HolderAt, Field, GeminiSystem, ListOf;
  }

  lemma FallbackSpot(to: Target, j: Json, raw: string)
    requires Supported(to, j) && Texts(to, j) == [] && Arrays(MainWalk(to, j), j) == []
    ensures FallbackOk(to, j, raw)
  {
    hide *;
    match to
    case ChatTarget => ChatFallback(j, raw);
    case ResponsesTarget => ResponsesFallback(j, raw);
    case ClaudeTarget => ClaudeFallback(j, raw);
    case GeminiTarget => GeminiFallback(j, raw);
    case AntigravityTarget => AntigravityFallback(j, raw);
  }

  lemma RequestArrays(j: Json)
    requires Supported(AntigravityTarget, j) && Held(j, RequestKey(j))
    ensures Arrays(MainWalk(AntigravityTarget, j), j) != []
  {
    var key := RequestKey(j);
    var g := Holder(j, key);
    HolderHas(j, key);
    SystemArrays(g, key);
    hide Supported, Arrays, FindHolder, GeminiWalk, RequestKey, LiftPaths, SystemOk;
    assert MainWalk(AntigravityTarget, j) == ItemAt(HolderAt(j, key), GeminiWalk(key));
    HeldArrays(j, HolderAt(j, key), GeminiWalk(key));
  }

  lemma HeldArrays(j: Json, k: nat, next: Walk)
    requires j.Obj? && k < |j.items| && Arrays(next, j.items[k].value) != []
    ensures Arrays(ItemAt(k, next), j) != []
  {
    assert |LiftPaths(k, Arrays(next, j.items[k].value))| > 0;
    hide LiftPaths;
  }

  lemma HolderHas(j: Json, key: string)
    requires Held(j, key)
    ensures Has(Holder(j, key), key)
  {
  }

  lemma MemberArrays(key: string, next: Walk, j: Json)
    requires j.Obj? && Has(j, key)
    ensures Arrays(One(Member(key, next)), j) == LiftPaths(Find(j.items, key), Arrays(next, Get(j, key)))
  {
    hide Find, LiftPaths;
  }

  lemma InstructionsSeen(j: Json)
    requires Supported(ResponsesTarget, j) && Has(j, "instructions")
    ensures Texts(ResponsesTarget, j) != []
  {
    ResponsesTexts(j);
    var v := Get(j, "instructions");
    assert v.Str?;
    hide *;
    MemberSlots("instructions", Text(PROMPT), j);
    StringSlots(v.raw);
  }

  lemma SystemSeen(j: Json)
    requires Supported(ClaudeTarget, j) && Has(j, "system")
    ensures Texts(ClaudeTarget, j) != [] || Arrays(MainWalk(ClaudeTarget, j), j) != []
  {
    ClaudeTexts(j);
    var v, next := Get(j, "system"), TextOrEach(PROMPT, TextBlock("text"));
    assert v.Str? || (v.Arr? && Arrays(next, v) == [[]]);
    assert MainWalk(ClaudeTarget, j) == One(Member("system", next));
    hide *;
    MemberSlots("system", next, j);
    MemberArrays("system", next, j);
    if v.Str? { StringSlots(v.raw); }
  }
}
