/** A projection is the conversation of the payload, and exists exactly for the readable ones. */
module ConversationProofs {
  import opened Common
  import opened JsonText
  import opened JsonTree
  import opened JsonQuery
  import opened JsonSlots
  import opened JsonValue
  import opened Projection
  import opened Headroom
  import opened Conversations

  /** A template with these slots in its holes is this message, and the holes are where it may change. */
  ghost predicate One(t: Template, slots: seq<TextSlot>, s: Said) {
    && |slots| == Headroom.Holes(t) == |s.free|
    && Fill(t, Texts(slots)) == s.message
    && forall k | 0 <= k < |slots| :: slots[k].path == s.free[k].path && TargetsOf(t, 0)[k].block == s.free[k].block
  }

  ghost predicate Tells(ts: seq<Template>, slots: seq<TextSlot>, said: seq<Said>)
    decreases |ts|
  {
    if ts == [] then slots == [] && said == []
    else
      var h := Headroom.Holes(ts[0]);
      said != [] && h <= |slots| && One(ts[0], slots[..h], said[0]) && Tells(ts[1..], slots[h..], said[1..])
  }

  /** A projection succeeds just when it should, and then says just this. */
  ghost predicate Exact(p: Option<Projected>, ok: bool, said: seq<Said>) {
    p.Some? == ok && (ok ==> Tells(p.value.templates, p.value.slots, said))
  }

  lemma TellsNone()
    ensures Tells([], [], [])
  {
  }

  lemma TellsOne(t: Template, slots: seq<TextSlot>, s: Said)
    requires One(t, slots, s)
    ensures Tells([t], slots, [s])
  {
    hide One, Headroom.Holes;
    assert slots[..Headroom.Holes(t)] == slots && slots[Headroom.Holes(t)..] == [] by { HolesAre(t, slots, s); }
    assert [t][1..] == [] && [s][1..] == [];
    TellsNone();
  }

  lemma HolesAre(t: Template, slots: seq<TextSlot>, s: Said)
    requires One(t, slots, s)
    ensures |slots| == Headroom.Holes(t)
  {
  }

  lemma TellsCons(t: Template, x: seq<TextSlot>, s: Said, ts: seq<Template>, y: seq<TextSlot>, said: seq<Said>)
    requires One(t, x, s) && Tells(ts, y, said)
    ensures Tells([t] + ts, x + y, [s] + said)
  {
    HolesAre(t, x, s);
    hide One, Headroom.Holes;
    assert ([t] + ts)[1..] == ts && ([s] + said)[1..] == said && (x + y)[..|x|] == x && (x + y)[|x|..] == y;
  }

  lemma Cut<T>(a: seq<T>, k: nat, b: seq<T>)
    requires k <= |a|
    ensures a[..k] + (a[k..] + b) == a + b
  {
  }

  lemma CutOne<T>(a: seq<T>, b: seq<T>)
    requires a != []
    ensures [a[0]] + (a[1..] + b) == a + b
  {
  }

  lemma TellsHead(ts: seq<Template>, slots: seq<TextSlot>, said: seq<Said>)
    requires Tells(ts, slots, said)
    ensures ts == [] ==> slots == [] && said == []
    ensures ts != [] ==>
              var h := Headroom.Holes(ts[0]);
              said != [] && h <= |slots| && One(ts[0], slots[..h], said[0]) && Tells(ts[1..], slots[h..], said[1..])
  {
    hide One, Headroom.Holes;
  }

  lemma {:induction false} TellsBoth(a: seq<Template>, x: seq<TextSlot>, s: seq<Said>, b: seq<Template>,
                                     y: seq<TextSlot>, t: seq<Said>)
    requires Tells(a, x, s) && Tells(b, y, t)
    ensures Tells(a + b, x + y, s + t)
    decreases |a|
  {
    hide *;
    TellsHead(a, x, s);
    if a == [] {
      assert a + b == b && x + y == y && s + t == t;
    } else {
      var h := Headroom.Holes(a[0]);
      TellsBoth(a[1..], x[h..], s[1..], b, y, t);
      TellsCons(a[0], x[..h], s[0], a[1..] + b, x[h..] + y, s[1..] + t);
      CutOne(a, b);
      Cut(x, h, y);
      CutOne(s, t);
    }
  }

  lemma OneLifted(k: nat, t: Template, slots: seq<TextSlot>, s: Said)
    requires One(t, slots, s)
    ensures One(t, Lift(k, slots), s.(free := FreeUnder(k, s.free)))
  {
    hide Fill, Headroom.Holes, TargetsOf;
    assert Texts(Lift(k, slots)) == Texts(slots);
  }

  lemma {:induction false} TellsLifted(k: nat, ts: seq<Template>, slots: seq<TextSlot>, said: seq<Said>)
    requires Tells(ts, slots, said)
    ensures Tells(ts, Lift(k, slots), Under(k, said))
    decreases |ts|
  {
    hide One, Headroom.Holes;
    if ts != [] {
      var h := Headroom.Holes(ts[0]);
      TellsLifted(k, ts[1..], slots[h..], said[1..]);
      OneLifted(k, ts[0], slots[..h], said[0]);
      assert Lift(k, slots)[..h] == Lift(k, slots[..h]) && Lift(k, slots)[h..] == Lift(k, slots[h..]);
      assert Under(k, said)[1..] == Under(k, said[1..]);
    }
  }

  /** Messages without holes. */
  lemma TellsFixed(t: Template, s: Said)
    requires t.content.Fixed? && s.free == [] && Fill(t, []) == s.message
    ensures Tells([t], [], [s])
  {
    var none: seq<TextSlot> := [];
    assert Texts(none) == [];
    TellsOne(t, none, s);
  }

  /* ---------- the ways in which a value is projected ---------- */

  lemma TextOne(members: Members, slot: TextSlot)
    ensures Tells([Template(members, TextHole)], [slot],
                  [Said(VObj(members["content" := VStr(slot.text)]), [Free(slot.path, -1)])])
  {
    assert Texts([slot])[0] == slot.text;
    TellsOne(Template(members, TextHole), [slot],
             Said(VObj(members["content" := VStr(slot.text)]), [Free(slot.path, -1)]));
  }

  lemma HoleExact(members: Members, v: Json, marshal: JValue -> string)
    ensures Exact(ProjectSub(Hole(members), v, marshal), v.Str?,
                  [Said(VObj(members["content" := VStr(TextOf(v))]), [Free([], -1)])])
  {
    hide Decode, Tells;
    if v.Str? { TextOne(members, Slot([], Decode(v.raw), ())); }
  }

  /** The blocks of a kind are read as these values. */
  lemma {:induction false} BlocksExact(kind: BlockKind, es: seq<Elem>, c: nat)
    requires c <= |es|
    ensures Blocks(kind, es, c).Some? <==> forall i | 0 <= i < c :: BlockMembers(kind, es[i].value).Some?
    ensures Blocks(kind, es, c).Some? ==>
              && |Blocks(kind, es, c).value.0| == |Blocks(kind, es, c).value.1| == c
              && forall i | 0 <= i < c :: && BlockMembers(kind, es[i].value).Some?
                                          && Blocks(kind, es, c).value.0[i] == BlockMembers(kind, es[i].value).value
                                          && Blocks(kind, es, c).value.1[i] == BlockSlot(i, es[i].value)
  {
    hide BlockMembers, BlockSlot;
    if c > 0 { BlocksExact(kind, es, c - 1); }
  }

  lemma BlockIsText(kind: BlockKind, b: Json)
    ensures BlockMembers(kind, b).Some? <==> IsText(b, kind.ResponsesText?)
    ensures IsText(b, kind.ResponsesText?) && !kind.ChatText? ==>
              BlockMembers(kind, b).value == map["type" := VStr("text")]
    ensures IsText(b, kind.ResponsesText?) && kind.ChatText? ==> BlockMembers(kind, b).value == Fields(b, "text")
  {
    hide Find, Decode, Fields;
  }

  lemma FieldsBack(j: Json, key: string)
    requires Has(j, key)
    ensures VObj(Fields(j, key)[key := Value(Get(j, key))]) == Value(j)
  {
    assert key in Names(j.items);
    assert Fields(j, key)[key := Value(Get(j, key))] == map name | name in Names(j.items) :: Value(Get(j, name));
  }

  lemma ChatBlockValue(b: Json)
    requires HasStr(b, "text")
    ensures BlockValue(Fields(b, "text"), TextAt(b, "text")) == Value(b)
  {
    hide Fields, Find, Decode;
    FieldsBack(b, "text");
    StrValue(Get(b, "text"));
  }

  lemma StrValue(v: Json)
    requires v.Str?
    ensures Value(v) == VStr(TextOf(v))
  {
  }

  lemma ArrValue(v: Json)
    requires v.Arr?
    ensures Value(v) == VArr(seq(|v.items|, i requires 0 <= i < |v.items| => Value(v.items[i].value)))
  {
  }

  /** What the blocks are sent as: unchanged in a chat message, or as plain text blocks. */
  function SentBlocks(kind: BlockKind, v: Json): JValue
    requires v.Arr?
  {
    if kind.ChatText? then Value(v) else TextBlocks(v)
  }

  lemma BlocksSent(kind: BlockKind, v: Json)
    requires AllText(v, kind.ResponsesText?)
    ensures Blocks(kind, v.items, |v.items|).Some?
    ensures var (bs, slots) := Blocks(kind, v.items, |v.items|).value;
            && |bs| == |slots| == |v.items|
            && BlockTexts(bs, Texts(slots)) == SentBlocks(kind, v)
            && |FreeBlocks(v)| == |slots|
            && forall i | 0 <= i < |slots| ::
                 slots[i].path == FreeBlocks(v)[i].path && FreeBlocks(v)[i].block == i
  {
    hide Blocks, BlockMembers, IsText, TextAt, Find, BlockValue;
    BlocksExact(kind, v.items, |v.items|);
    forall i | 0 <= i < |v.items|
      ensures BlockMembers(kind, v.items[i].value).Some? && StrAt(v.items[i].value, "text")
      ensures BlockValue(BlockMembers(kind, v.items[i].value).value, TextAt(v.items[i].value, "text"))
              == if kind.ChatText? then Value(v.items[i].value)
                 else VObj(map["type" := VStr("text"), "text" := VStr(TextAt(v.items[i].value, "text"))])
    {
      BlockSent(kind, v.items[i].value);
    }
    ArrValue(v);
    var (bs, slots) := Blocks(kind, v.items, |v.items|).value;
    hide Value;
    assert BlockTexts(bs, Texts(slots)).items == SentBlocks(kind, v).items;
  }

  lemma BlockSent(kind: BlockKind, b: Json)
    requires IsText(b, kind.ResponsesText?)
    ensures BlockMembers(kind, b).Some? && StrAt(b, "text")
    ensures BlockValue(BlockMembers(kind, b).value, TextAt(b, "text"))
            == if kind.ChatText? then Value(b) else VObj(map["type" := VStr("text"), "text" := VStr(TextAt(b, "text"))])
  {
    BlockIsText(kind, b);
    hide BlockMembers, TextAt, Find, Fields;
    ChatBlockValue(b);
  }

  lemma BlocksRefused(kind: BlockKind, v: Json)
    requires v.Arr?
    ensures Blocks(kind, v.items, |v.items|).Some? <==> AllText(v, kind.ResponsesText?)
  {
    hide Blocks, BlockMembers, IsText;
    BlocksExact(kind, v.items, |v.items|);
    forall i | 0 <= i < |v.items|
      ensures BlockMembers(kind, v.items[i].value).Some? <==> IsText(v.items[i].value, kind.ResponsesText?)
    {
      BlockIsText(kind, v.items[i].value);
    }
  }

  lemma HolesExact(members: Members, kind: BlockKind, v: Json, marshal: JValue -> string)
    requires v.Arr?
    ensures Exact(ProjectSub(Holes(members, kind), v, marshal), AllText(v, kind.ResponsesText?),
                  [Said(VObj(members["content" := SentBlocks(kind, v)]), FreeBlocks(v))])
  {
    hide Blocks, AllText, SentBlocks, Tells, FreeBlocks, BlockTexts, Texts;
    BlocksRefused(kind, v);
    if AllText(v, kind.ResponsesText?) {
      BlocksSent(kind, v);
      var (bs, slots) := Blocks(kind, v.items, |v.items|).value;
      BlocksOne(members, bs, slots, SentBlocks(kind, v), FreeBlocks(v));
    }
  }

  lemma BlocksOne(members: Members, bs: seq<Members>, slots: seq<TextSlot>, content: JValue, free: seq<Free>)
    requires |bs| == |slots| == |free| && BlockTexts(bs, Texts(slots)) == content
    requires forall i | 0 <= i < |slots| :: slots[i].path == free[i].path && free[i].block == i
    ensures Tells([Template(members, BlockHoles(bs))], slots, [Said(VObj(members["content" := content]), free)])
  {
    hide BlockTexts, Texts, Tells;
    TellsOne(Template(members, BlockHoles(bs)), slots, Said(VObj(members["content" := content]), free));
  }

  lemma SoleExact(members: Members, v: Json, marshal: JValue -> string)
    requires v.Arr? && |v.items| == 1
    ensures Exact(ProjectSub(Sole(members, ResponsesText), v, marshal), AllText(v, true),
                  [Said(VObj(members["content" := VStr(TextAt(v.items[0].value, "text"))]),
                        [Free([0, Find(Items(v.items[0].value), "text")], -1)])])
  {
    var b := v.items[0].value;
    BlockIsText(ResponsesText, b);
    hide BlockMembers, TextAt, Find, Tells;
    if AllText(v, true) { TextOne(members, BlockSlot(0, b)); }
  }

  predicate All(ok: seq<bool>) { forall i | 0 <= i < |ok| :: ok[i] }

  lemma AllFront(ok: seq<bool>)
    requires ok != []
    ensures All(ok) <==> All(ok[..|ok| - 1]) && ok[|ok| - 1]
  {
    assert All(ok[..|ok| - 1]) ==> forall i | 0 <= i < |ok| - 1 :: ok[..|ok| - 1][i] && ok[i];
    assert All(ok) ==> forall i | 0 <= i < |ok[..|ok| - 1]| :: ok[i] == ok[..|ok| - 1][i];
  }

  /** Items that are projected exactly one by one are so together. */
  lemma {:induction false} ItemsExact(n: Level, es: seq<Elem>, c: nat, ok: seq<bool>, said: seq<seq<Said>>,
                                      marshal: JValue -> string)
    requires c == |ok| == |said| <= |es|
    requires forall i | 0 <= i < c :: Exact(ProjectLevel(n, es[i].value, marshal), ok[i], said[i])
    ensures Exact(ProjectItems(n, es, c, marshal), All(ok), Joined(said))
    decreases c
  {
    hide ProjectLevel, Tells, Lift, Under;
    if c == 0 {
      TellsNone();
    } else {
      var front := said[..c - 1];
      ItemsExact(n, es, c - 1, ok[..c - 1], front, marshal);
      AllFront(ok);
      if All(ok) {
        var p, q := ProjectItems(n, es, c - 1, marshal).value, ProjectLevel(n, es[c - 1].value, marshal).value;
        TellsLifted(c - 1, q.templates, q.slots, said[c - 1]);
        TellsBoth(p.templates, p.slots, Joined(front), q.templates, Lift(c - 1, q.slots), Under(c - 1, said[c - 1]));
      }
    }
  }

  /** A level that goes into a member. */
  lemma IntoExact(n: Level, j: Json, ok: bool, said: seq<Said>, marshal: JValue -> string)
    requires StepOf(n, j, marshal).Into? && Has(j, StepOf(n, j, marshal).key) && StepOf(n, j, marshal).before == []
    requires var step := StepOf(n, j, marshal); Exact(ProjectSub(step.sub, Get(j, step.key), marshal), ok, said)
    ensures Exact(ProjectLevel(n, j, marshal), ok, Under(Find(j.items, StepOf(n, j, marshal).key), said))
  {
    hide StepOf, ProjectSub, Tells, Find, Lift, Under;
    var step := StepOf(n, j, marshal);
    if ok {
      var p := ProjectSub(step.sub, Get(j, step.key), marshal).value;
      TellsLifted(Find(j.items, step.key), p.templates, p.slots, said);
      assert [] + p.templates == p.templates;
    }
  }

  lemma FailExact(n: Level, j: Json, said: seq<Said>, marshal: JValue -> string)
    requires StepOf(n, j, marshal).Fail?
    ensures Exact(ProjectLevel(n, j, marshal), false, said)
  {
    hide StepOf, Tells;
  }

  lemma EmitExact(n: Level, j: Json, said: seq<Said>, marshal: JValue -> string)
    requires StepOf(n, j, marshal).Emit? && Tells(StepOf(n, j, marshal).fixed, [], said)
    ensures Exact(ProjectLevel(n, j, marshal), true, said)
  {
    hide StepOf, Tells;
  }

  lemma UnderOne(k: nat, s: Said)
    ensures Under(k, [s]) == [s.(free := FreeUnder(k, s.free))]
  {
  }

  /* ---------- OpenAI chat ---------- */

  /** The role and the tool fields of a message are right. */
  predicate Fielded(m: Json) {
    var role := TextAt(m, "role");
    && (role == "system" || role == "developer" || role == "user" || role == "assistant" || role == "tool")
    && (role == "tool" ==> TextAt(m, "tool_call_id") != "")
    && (Has(m, "tool_calls") ==>
          role == "assistant" && Get(m, "tool_calls").Arr?
          && forall i | 0 <= i < |Get(m, "tool_calls").items| :: IsCall(Get(m, "tool_calls").items[i].value))
  }

  lemma CallsAgree(c: Json)
    ensures IsCall(c) == ToolCallOk(c)
  {
    hide Find, TextAt;
  }

  lemma FieldedIs(m: Json)
    ensures Fielded(m) <==> ValidRole(TextAt(m, "role")) && ToolFieldsOk(m, TextAt(m, "role"))
  {
    forall c ensures IsCall(c) == ToolCallOk(c) { CallsAgree(c); }
    hide Find, TextAt, IsCall, ToolCallOk, Has, Get;
  }

  lemma ChatOkIs(m: Json)
    ensures ChatOk(m) <==> && m.Obj? && Fielded(m)
                           && (HasStr(m, "content") || (Has(m, "content") && AllText(Get(m, "content"), false))
                               || ((!Has(m, "content") || Get(m, "content") == Lit("null")) && Has(m, "tool_calls")))
  {
    hide Find, TextAt, IsCall, Has, Get, AllText;
  }

  /** How a message with right fields is projected, by its content. */
  lemma ChatStepIs(m: Json)
    requires m.Obj?
    ensures !Fielded(m) ==> ChatStep(m).Fail?
    ensures Fielded(m) && !Has(m, "content") ==>
              ChatStep(m) == if Has(m, "tool_calls") then Emit([Template(Fields(m, "content"), Fixed(None))]) else Fail
    ensures Fielded(m) && Has(m, "content") ==>
              var content, members := Get(m, "content"), Fields(m, "content");
              var whole := Emit([Template(members, Fixed(Some(Value(content))))]);
              ChatStep(m) == if content.Str? then
                               if Instructs(TextAt(m, "role")) then whole else Into([], "content", Hole(members))
                             else if content.Arr? then
                               if !Instructs(TextAt(m, "role")) then Into([], "content", Holes(members, ChatText))
                               else if Blocks(ChatText, content.items, |content.items|).Some? then whole else Fail
                             else if content == Lit("null") && Has(m, "tool_calls") then whole
                             else Fail
  {
    FieldedIs(m);
    CallsPresent(m);
    hide Find, TextAt, Has, Get, Fields, Value, Blocks, IsCall, ToolFieldsOk, ValidRole, PresentAt, Fielded;
    NullValue();
  }

  lemma NullValue()
    ensures Value(Lit("null")) == VLit("null")
  {
  }

  lemma CallsPresent(m: Json)
    requires m.Obj?
    ensures Fielded(m) ==> (Has(m, "tool_calls") <==> TextAt(m, "role") == "assistant" && PresentAt(m, "tool_calls"))
  {
    hide Find, TextAt, IsCall;
  }

  lemma NoContent(m: Json)
    requires m.Obj? && !Has(m, "content")
    ensures VObj(Fields(m, "content")) == Value(m)
  {
    hide Find;
    assert "content" !in Names(m.items);
    assert Fields(m, "content") == map name | name in Names(m.items) :: Value(Get(m, name));
  }

  lemma ChatItemExact(m: Json, marshal: JValue -> string)
    ensures Exact(ProjectLevel(ChatItem, m, marshal), ChatOk(m), [ChatSaid(m)])
  {
    hide StepOf, ChatStep, ProjectLevel, ProjectSub, Exact, Tells, Fields, Value, AllText, Fielded, ChatOk, Find,
         TextAt,
         Instructs, Blocks;
    ChatOkIs(m);
    if !m.Obj? {
      NotObject(ChatItem, m, marshal);
      FailExact(ChatItem, m, [ChatSaid(m)], marshal);
    } else {
      ChatIs(m, marshal);
      ChatStepIs(m);
      if !Fielded(m) {
        FailExact(ChatItem, m, [ChatSaid(m)], marshal);
      } else if !Has(m, "content") {
        NoContent(m);
        if Has(m, "tool_calls") {
          TellsFixed(Template(Fields(m, "content"), Fixed(None)), ChatSaid(m));
          EmitExact(ChatItem, m, [ChatSaid(m)], marshal);
        } else {
          FailExact(ChatItem, m, [ChatSaid(m)], marshal);
        }
      } else {
        ChatContentExact(m, marshal);
      }
    }
  }

  lemma NotObject(n: Level, j: Json, marshal: JValue -> string)
    requires !j.Obj? && !n.OutputItem? && !n.OutputBlock?
    ensures StepOf(n, j, marshal).Fail?
  {
  }

  lemma ChatIs(m: Json, marshal: JValue -> string)
    requires m.Obj?
    ensures StepOf(ChatItem, m, marshal) == ChatStep(m)
  {
    hide ChatStep;
  }

  lemma ChatContentExact(m: Json, marshal: JValue -> string)
    requires m.Obj? && Fielded(m) && Has(m, "content")
    ensures Exact(ProjectLevel(ChatItem, m, marshal), ChatOk(m), [ChatSaid(m)])
  {
    hide StepOf, ChatStep, ProjectLevel, ProjectSub, Exact, Tells, Fields, Value, AllText, Fielded, ChatOk, Find,
         TextAt,
         Instructs, Blocks, FreeUnder, FreeBlocks, Under;
    ChatOkIs(m);
    ChatIs(m, marshal);
    ChatStepIs(m);
    FieldsBack(m, "content");
    var content, members, k := Get(m, "content"), Fields(m, "content"), Find(m.items, "content");
    if content.Str? {
      StrValue(content);
      if Instructs(TextAt(m, "role")) {
        WholeExact(m, members, content, marshal);
      } else {
        HoleExact(members, content, marshal);
        var s := Said(VObj(members["content" := VStr(TextOf(content))]), [Free([], -1)]);
        IntoExact(ChatItem, m, true, [s], marshal);
        UnderOne(k, s);
      }
    } else if content.Arr? {
      if Instructs(TextAt(m, "role")) {
        BlocksRefused(ChatText, content);
        if AllText(content, false) {
          WholeExact(m, members, content, marshal);
        } else {
          FailExact(ChatItem, m, [ChatSaid(m)], marshal);
        }
      } else {
        HolesExact(members, ChatText, content, marshal);
        var s := Said(VObj(members["content" := SentBlocks(ChatText, content)]), FreeBlocks(content));
        IntoExact(ChatItem, m, AllText(content, false), [s], marshal);
        UnderOne(k, s);
      }
    } else {
      NotAllText(content);
      if content == Lit("null") && Has(m, "tool_calls") {
        FreeUnderNone(k);
        WholeExact(m, members, content, marshal);
      } else {
        FailExact(ChatItem, m, [ChatSaid(m)], marshal);
      }
    }
  }

  lemma FreeUnderNone(k: nat)
    ensures FreeUnder(k, []) == []
  {
  }

  lemma NotAllText(v: Json)
    requires !v.Arr?
    ensures !AllText(v, false) && !AllText(v, true)
  {
  }

  lemma WholeExact(m: Json, members: Members, content: Json, marshal: JValue -> string)
    requires m.Obj? && StepOf(ChatItem, m, marshal) == Emit([Template(members, Fixed(Some(Value(content))))])
    requires ChatSaid(m) == Said(VObj(members["content" := Value(content)]), [])
    ensures Exact(ProjectLevel(ChatItem, m, marshal), true, [ChatSaid(m)])
  {
    hide StepOf, ProjectLevel, Exact, Tells, Value, ChatSaid;
    TellsFixed(Template(members, Fixed(Some(Value(content)))), ChatSaid(m));
    EmitExact(ChatItem, m, [ChatSaid(m)], marshal);
  }

  /* ---------- Responses ---------- */

  function ReadBlocks(v: Json): JValue
    requires v.Arr? && Blocks(ResponsesText, v.items, |v.items|).Some?
  {
    BlocksCount(ResponsesText, v.items, |v.items|);
    var (bs, slots) := Blocks(ResponsesText, v.items, |v.items|).value;
    BlockTexts(bs, Texts(slots))
  }

  lemma MessageStepIs(m: Json)
    requires m.Obj?
    ensures var role, content := TextAt(m, "role"), if Has(m, "content") then Get(m, "content") else Lit("");
            var good := TextAt(m, "type") == "message"
                        && (role == "system" || role == "developer" || role == "user" || role == "assistant");
            var members := map["role" := VStr(role)];
            MessageStep(m)
            == if !good || !(content.Str? || content.Arr?) then Fail
               else if !Instructs(role) then
                 Into([], "content",
                      if content.Str? then Hole(members)
                      else if |content.items| == 1 then Sole(members, ResponsesText) else Holes(members, ResponsesText))
               else if content.Str? then Emit([Template(members, Fixed(Some(VStr(TextOf(content)))))])
               else if Blocks(ResponsesText, content.items, |content.items|).None? then Fail
               else if |content.items| == 1 then
                 Emit([Template(members, Fixed(Some(VStr(TextAt(content.items[0].value, "text")))))])
               else Emit([Template(members, Fixed(Some(ReadBlocks(content))))])
  {
    hide Find, TextAt, Blocks, Has, Get, BlockTexts;
  }

  lemma FixedExact(n: Level, j: Json, members: Members, content: JValue, marshal: JValue -> string)
    requires StepOf(n, j, marshal) == Emit([Template(members, Fixed(Some(content)))])
    ensures Exact(ProjectLevel(n, j, marshal), true, [Said(VObj(members["content" := content]), [])])
  {
    hide StepOf, ProjectLevel, Exact, Tells;
    var s := Said(VObj(members["content" := content]), []);
    TellsFixed(Template(members, Fixed(Some(content))), s);
    EmitExact(n, j, [s], marshal);
  }

  lemma RoleMessage(role: string, content: JValue)
    ensures VObj(map["role" := VStr(role)]["content" := content]) == Message(role, content)
  {
  }

  lemma MessageOkIs(m: Json)
    ensures MessageOk(m) <==>
              && TextAt(m, "type") == "message"
              && (var role := TextAt(m, "role");
                  role == "system" || role == "developer" || role == "user" || role == "assistant")
              && Has(m, "content") && (Get(m, "content").Str? || AllText(Get(m, "content"), true))
  {
    hide Find, TextAt, Has, Get, AllText;
  }

  /** What a message says, if it can be read at all. */
  function MessageLine(m: Json): seq<Said> {
    if Has(m, "content") && (Get(m, "content").Str? || Get(m, "content").Arr?) then [MessageSaid(m)] else []
  }

  lemma MessageItemExact(m: Json, marshal: JValue -> string)
    ensures Exact(ProjectLevel(MessageItem, m, marshal), MessageOk(m), MessageLine(m))
  {
    hide StepOf, MessageStep, ProjectLevel, ProjectSub, Exact, Tells, AllText, MessageOk, Find, TextAt, Instructs,
         Blocks,
         FreeUnder, FreeBlocks, Under, MessageSaid, MessageLine, Get;
    MessageOkIs(m);
    if !m.Obj? {
      NotObject(MessageItem, m, marshal);
      FailExact(MessageItem, m, MessageLine(m), marshal);
      NoType(m);
    } else {
      MessageIs(m, marshal);
      MessageStepIs(m);
      if StepOf(MessageItem, m, marshal).Fail? && !MessageOk(m) {
        FailExact(MessageItem, m, MessageLine(m), marshal);
      } else {
        MessageReads(m, marshal);
        MessageContentExact(m, marshal);
      }
    }
  }

  lemma NoType(m: Json)
    requires !m.Obj?
    ensures !Has(m, "content")
  {
  }

  lemma MessageIs(m: Json, marshal: JValue -> string)
    requires m.Obj?
    ensures StepOf(MessageItem, m, marshal) == MessageStep(m)
  {
    hide MessageStep;
  }

  lemma MessageReads(m: Json, marshal: JValue -> string)
    requires m.Obj? && !(StepOf(MessageItem, m, marshal).Fail? && !MessageOk(m))
    ensures Has(m, "content") && (Get(m, "content").Str? || Get(m, "content").Arr?)
    ensures TextAt(m, "type") == "message"
            && (var role := TextAt(m, "role");
                role == "system" || role == "developer" || role == "user" || role == "assistant")
  {
    MessageOkIs(m);
    MessageIs(m, marshal);
    MessageStepIs(m);
    hide StepOf, MessageStep, MessageOk, Find, TextAt, Blocks, Has, AllText, Instructs, BlockTexts;
    if Has(m, "content") { NotAllText2(Get(m, "content")); }
  }

  lemma NotAllText2(v: Json)
    ensures !v.Arr? ==> !AllText(v, true)
  {
  }

  lemma MessageContentExact(m: Json, marshal: JValue -> string)
    requires m.Obj? && Has(m, "content") && (Get(m, "content").Str? || Get(m, "content").Arr?)
    requires TextAt(m, "type") == "message"
             && (var role := TextAt(m, "role");
                 role == "system" || role == "developer" || role == "user" || role == "assistant")
    ensures Exact(ProjectLevel(MessageItem, m, marshal), MessageOk(m), MessageLine(m))
  {
    hide StepOf, MessageStep, ProjectLevel, ProjectSub, Exact, Tells, AllText, MessageOk, Find, TextAt, Instructs,
         Blocks,
         FreeUnder, FreeBlocks, Under, Has, Get, BlockTexts, Texts, SentBlocks;
    MessageOkIs(m);
    MessageIs(m, marshal);
    MessageStepIs(m);
    var role, content, k := TextAt(m, "role"), Get(m, "content"), Find(m.items, "content");
    var members: Members := map["role" := VStr(role)];
    RoleMessage(role, VStr(TextOf(content)));
    if content.Str? {
      if Instructs(role) {
        FixedExact(MessageItem, m, members, VStr(TextOf(content)), marshal);
      } else {
        HoleExact(members, content, marshal);
        var s := Said(Message(role, VStr(TextOf(content))), [Free([], -1)]);
        IntoExact(MessageItem, m, true, [s], marshal);
        UnderOne(k, s);
      }
    } else {
      MessageBlocksExact(m, marshal);
    }
  }

  lemma MessageBlocksExact(m: Json, marshal: JValue -> string)
    requires m.Obj? && Has(m, "content") && Get(m, "content").Arr?
    requires TextAt(m, "type") == "message"
             && (var role := TextAt(m, "role");
                 role == "system" || role == "developer" || role == "user" || role == "assistant")
    ensures Exact(ProjectLevel(MessageItem, m, marshal), MessageOk(m), [MessageSaid(m)])
  {
    hide StepOf, MessageStep, ProjectLevel, ProjectSub, Exact, Tells, AllText, MessageOk, Find, TextAt, Instructs,
         Blocks,
         FreeUnder, FreeBlocks, Under, Has, Get, BlockTexts, Texts, SentBlocks;
    MessageOkIs(m);
    MessageIs(m, marshal);
    MessageStepIs(m);
    var role, content, k := TextAt(m, "role"), Get(m, "content"), Find(m.items, "content");
    var members: Members := map["role" := VStr(role)];
    BlocksRefused(ResponsesText, content);
    if Instructs(role) {
      if !AllText(content, true) {
        FailExact(MessageItem, m, [MessageSaid(m)], marshal);
      } else if |content.items| == 1 {
        RoleMessage(role, VStr(TextAt(content.items[0].value, "text")));
        FixedExact(MessageItem, m, members, VStr(TextAt(content.items[0].value, "text")), marshal);
      } else {
        BlocksSent(ResponsesText, content);
        SentPlain(content);
        RoleMessage(role, TextBlocks(content));
        FixedExact(MessageItem, m, members, TextBlocks(content), marshal);
      }
    } else if |content.items| == 1 {
      SoleExact(members, content, marshal);
      RoleMessage(role, VStr(TextAt(content.items[0].value, "text")));
      var s := Said(Message(role, VStr(TextAt(content.items[0].value, "text"))),
                    [Free([0, Find(Items(content.items[0].value), "text")], -1)]);
      IntoExact(MessageItem, m, AllText(content, true), [s], marshal);
      UnderOne(k, s);
    } else {
      HolesExact(members, ResponsesText, content, marshal);
      SentPlain(content);
      RoleMessage(role, TextBlocks(content));
      var s := Said(Message(role, TextBlocks(content)), FreeBlocks(content));
      IntoExact(MessageItem, m, AllText(content, true), [s], marshal);
      UnderOne(k, s);
    }
  }

  lemma SentPlain(v: Json)
    requires v.Arr?
    ensures SentBlocks(ResponsesText, v) == SentBlocks(ClaudeText, v) == TextBlocks(v)
  {
    hide TextBlocks;
  }

  /** Nothing is said of items that are passed over. */
  lemma SilentExact(n: Level, j: Json, marshal: JValue -> string)
    requires StepOf(n, j, marshal) == Emit([])
    ensures Exact(ProjectLevel(n, j, marshal), true, [])
  {
    hide StepOf, ProjectLevel, Exact, Tells;
    TellsNone();
    EmitExact(n, j, [], marshal);
  }

  /** One string under a name, as the content of a message. */
  lemma TextExact(n: Level, j: Json, key: string, members: Members, marshal: JValue -> string)
    requires StepOf(n, j, marshal) == Into([], key, Hole(members)) && HasStr(j, key)
    ensures Exact(ProjectLevel(n, j, marshal), true,
                  [Said(VObj(members["content" := VStr(TextAt(j, key))]), [Free([Find(j.items, key)], -1)])])
  {
    hide StepOf, ProjectLevel, ProjectSub, Exact, Tells, Find;
    HoleExact(members, Get(j, key), marshal);
    var s := Said(VObj(members["content" := VStr(TextAt(j, key))]), [Free([], -1)]);
    IntoExact(n, j, true, [s], marshal);
    UnderOne(Find(j.items, key), s);
    FreeUnderRoot(Find(j.items, key));
  }

  lemma FreeUnderRoot(k: nat)
    ensures FreeUnder(k, [Free([], -1)]) == [Free([k], -1)]
  {
    assert [k] + [] == [k];
  }

  lemma ToolMembers(id: string, content: JValue)
    ensures VObj(ToolReply(id)["content" := content]) == Reply(id, content)
  {
  }

  lemma OutputBlockIs(b: Json, id: string, marshal: JValue -> string)
    ensures StepOf(OutputBlock(id), b, marshal)
            == if IsText(b, true) then Into([], "text", Hole(ToolReply(id))) else Emit([])
  {
    hide Find, Decode, ToolReply;
  }

  lemma OutputBlockExact(b: Json, id: string, marshal: JValue -> string)
    ensures Exact(ProjectLevel(OutputBlock(id), b, marshal), true, OutputBlockSaid(b, id))
  {
    OutputBlockIs(b, id, marshal);
    hide StepOf, ProjectLevel, Exact, Find, TextAt, ToolReply, Reply;
    if IsText(b, true) {
      TextExact(OutputBlock(id), b, "text", ToolReply(id), marshal);
      ToolMembers(id, VStr(TextAt(b, "text")));
    } else {
      SilentExact(OutputBlock(id), b, marshal);
    }
  }

  lemma OutputIs(item: Json, marshal: JValue -> string)
    ensures var id := TextAt(item, "call_id");
            StepOf(OutputItem, item, marshal)
            == if !IsOutput(item) || id == "" || !Has(item, "output") then Emit([])
               else if Get(item, "output").Str? then Into([], "output", Hole(ToolReply(id)))
               else if Get(item, "output").Arr? then Into([], "output", EachItem(OutputBlock(id)))
               else Emit([])
  {
    hide Find, Decode, ToolReply;
  }

  function Yes(n: nat): (r: seq<bool>)
    ensures |r| == n && All(r)
  {
    seq(n, i => true)
  }

  lemma OutputItemExact(item: Json, marshal: JValue -> string)
    ensures Exact(ProjectLevel(OutputItem, item, marshal), true, OutputSaid(item))
  {
    OutputIs(item, marshal);
    hide StepOf, ProjectLevel, ProjectItems, Exact, Find, TextAt, ToolReply, Reply, IsOutput, Joined, OutputBlockSaid;
    var id := TextAt(item, "call_id");
    if !IsOutput(item) || id == "" || !Has(item, "output") {
      SilentExact(OutputItem, item, marshal);
    } else {
      var output := Get(item, "output");
      if output.Str? {
        StrText(item, "output");
        TextExact(OutputItem, item, "output", ToolReply(id), marshal);
        ToolMembers(id, VStr(TextOf(output)));
      } else if output.Arr? {
        var said := seq(|output.items|,
                        i requires 0 <= i < |output.items| => OutputBlockSaid(output.items[i].value, id));
        forall i | 0 <= i < |output.items|
          ensures Exact(ProjectLevel(OutputBlock(id), output.items[i].value, marshal), Yes(|output.items|)[i], said[i])
        {
          OutputBlockExact(output.items[i].value, id, marshal);
        }
        ListExact(OutputItem, item, "output", OutputBlock(id), Yes(|output.items|), said, marshal);
      } else {
        SilentExact(OutputItem, item, marshal);
      }
    }
  }

  lemma StrText(j: Json, key: string)
    requires Has(j, key)
    ensures TextAt(j, key) == TextOf(Get(j, key))
  {
    hide TextOf;
  }

  /** A list under a name, item by item. */
  lemma ListExact(n: Level, j: Json, key: string, m: Level, ok: seq<bool>, said: seq<seq<Said>>,
                  marshal: JValue -> string)
    requires StepOf(n, j, marshal) == Into([], key, EachItem(m)) && HasArr(j, key)
    requires |ok| == |said| == |Get(j, key).items|
    requires forall i | 0 <= i < |ok| :: Exact(ProjectLevel(m, Get(j, key).items[i].value, marshal), ok[i], said[i])
    ensures Exact(ProjectLevel(n, j, marshal), All(ok), InList(j, key, said))
  {
    hide StepOf, ProjectLevel, Exact, Find, Joined, ProjectItems, All, Has, Get;
    var items := Get(j, key).items;
    ItemsExact(m, items, |items|, ok, said, marshal);
    EachIs(m, Get(j, key), marshal);
    IntoExact(n, j, All(ok), Joined(said), marshal);
  }

  lemma EachIs(m: Level, v: Json, marshal: JValue -> string)
    requires v.Arr?
    ensures ProjectSub(EachItem(m), v, marshal) == ProjectItems(m, v.items, |v.items|, marshal)
  {
    hide ProjectItems;
  }

  /* ---------- Claude ---------- */

  lemma ClaudeBlockIs(b: Json, role: string, marshal: JValue -> string)
    ensures !ClaudeBlockOk(b, role) && TextAt(b, "type") != "tool_result" ==>
              StepOf(ClaudeContent(role), b, marshal).Fail?
    ensures TextAt(b, "type") == "text" && HasStr(b, "text") ==>
              StepOf(ClaudeContent(role), b, marshal) == Into([], "text", Hole(Role(role)))
    ensures TextAt(b, "type") == "tool_use" && ClaudeBlockOk(b, role) ==>
              StepOf(ClaudeContent(role), b, marshal)
              == Emit([ToolCall(TextAt(b, "id"), TextAt(b, "name"), marshal(Value(Get(b, "input"))))])
    ensures TextAt(b, "type") == "tool_result" ==>
              var id := TextAt(b, "tool_use_id");
              StepOf(ClaudeContent(role), b, marshal)
              == if role != "user" || id == "" then Fail
                 else if HasStr(b, "content") then Into([], "content", Hole(ToolReply(id)))
                 else if HasArr(b, "content") then Into([], "content", Holes(ToolReply(id), ClaudeText))
                 else Fail
  {
    KindsDiffer();
    hide Decode, ToolReply, Role, ToolCall, Value, AllText;
    hide Find;
  }

  lemma KindsDiffer()
    ensures "text" != "tool_use" && "text" != "tool_result" && "tool_use" != "tool_result"
  {
    assert |"text"| == 4 && |"tool_use"| == 8 && |"tool_result"| == 11;
  }

  lemma CallFilled(id: string, name: string, arguments: string)
    ensures ToolCall(id, name, arguments).content == Fixed(None)
    ensures Fill(ToolCall(id, name, arguments), []) == Call(id, name, arguments)
  {
  }

  lemma CallExact(n: Level, j: Json, id: string, name: string, arguments: string, marshal: JValue -> string)
    requires StepOf(n, j, marshal) == Emit([ToolCall(id, name, arguments)])
    ensures Exact(ProjectLevel(n, j, marshal), true, [Said(Call(id, name, arguments), [])])
  {
    hide StepOf, ProjectLevel, Exact, Tells, ToolCall, Call, Fill;
    CallFilled(id, name, arguments);
    TellsFixed(ToolCall(id, name, arguments), Said(Call(id, name, arguments), []));
    EmitExact(n, j, [Said(Call(id, name, arguments), [])], marshal);
  }

  function ClaudeLine(b: Json, role: string, marshal: JValue -> string): seq<Said> {
    if ClaudeBlockOk(b, role) then ClaudeBlockSaid(b, role, marshal) else []
  }

  lemma ClaudeBlockExact(b: Json, role: string, marshal: JValue -> string)
    ensures Exact(ProjectLevel(ClaudeContent(role), b, marshal), ClaudeBlockOk(b, role), ClaudeLine(b, role, marshal))
  {
    KindsDiffer();
    ClaudeBlockIs(b, role, marshal);
    hide StepOf, ProjectLevel, Exact, Find, TextAt, ToolReply, Reply, Call, Value, ToolCall, Role, Has, Get;
    if TextAt(b, "type") == "tool_result" {
      ClaudeResultExact(b, role, marshal);
    } else if !ClaudeBlockOk(b, role) {
      FailExact(ClaudeContent(role), b, [], marshal);
    } else if TextAt(b, "type") == "text" {
      TextExact(ClaudeContent(role), b, "text", Role(role), marshal);
      RoleIs(role, VStr(TextAt(b, "text")));
    } else {
      CallExact(ClaudeContent(role), b, TextAt(b, "id"), TextAt(b, "name"), marshal(Value(Get(b, "input"))), marshal);
    }
  }

  lemma RoleIs(role: string, content: JValue)
    ensures VObj(Role(role)["content" := content]) == Message(role, content)
  {
  }

  lemma ClaudeResultExact(b: Json, role: string, marshal: JValue -> string)
    requires TextAt(b, "type") == "tool_result"
    ensures Exact(ProjectLevel(ClaudeContent(role), b, marshal), ClaudeBlockOk(b, role), ClaudeLine(b, role, marshal))
  {
    KindsDiffer();
    ClaudeBlockIs(b, role, marshal);
    hide StepOf, ProjectLevel, ProjectSub, Exact, Find, TextAt, ToolReply, Reply, Call, Value, AllText, TextBlocks,
         FreeBlocks, FreeUnder, Under, SentBlocks;
    var n, id := ClaudeContent(role), TextAt(b, "tool_use_id");
    if role != "user" || id == "" {
      FailExact(n, b, [], marshal);
    } else if HasStr(b, "content") {
      StrText(b, "content");
      TextExact(n, b, "content", ToolReply(id), marshal);
      ToolMembers(id, VStr(TextAt(b, "content")));
    } else if HasArr(b, "content") {
      var content, k := Get(b, "content"), Find(b.items, "content");
      HolesExact(ToolReply(id), ClaudeText, content, marshal);
      SentPlain(content);
      ToolMembers(id, TextBlocks(content));
      var s := Said(Reply(id, TextBlocks(content)), FreeBlocks(content));
      IntoExact(n, b, AllText(content, false), [s], marshal);
      UnderOne(k, s);
      if !AllText(content, false) { NotTold(n, b, [s.(free := FreeUnder(k, s.free))], marshal); }
    } else {
      if Has(b, "content") { NotAllText(Get(b, "content")); }
      FailExact(n, b, [], marshal);
    }
  }

  lemma NotTold(n: Level, j: Json, said: seq<Said>, marshal: JValue -> string)
    requires Exact(ProjectLevel(n, j, marshal), false, said)
    ensures Exact(ProjectLevel(n, j, marshal), false, [])
  {
    hide ProjectLevel, Tells;
  }

  lemma ClaudeItemIs(m: Json, marshal: JValue -> string)
    ensures var role := TextAt(m, "role");
            StepOf(ClaudeItem, m, marshal)
            == if role != "user" && role != "assistant" then Fail
               else if HasStr(m, "content") then Into([], "content", Hole(Role(role)))
               else if HasArr(m, "content") then Into([], "content", EachItem(ClaudeContent(role)))
               else Fail
  {
    hide Find, Decode, Role;
  }

  function ClaudeLines(m: Json, marshal: JValue -> string): seq<Said> {
    if ClaudeOk(m) then ClaudeSaid(m, marshal) else []
  }

  lemma ClaudeItemExact(m: Json, marshal: JValue -> string)
    ensures Exact(ProjectLevel(ClaudeItem, m, marshal), ClaudeOk(m), ClaudeLines(m, marshal))
  {
    ClaudeItemIs(m, marshal);
    hide StepOf, ProjectLevel, ProjectItems, Exact, Find, TextAt, Role, Joined, ClaudeBlockOk, ClaudeBlockSaid,
         ClaudeLine,
         Message, All;
    var role := TextAt(m, "role");
    if role != "user" && role != "assistant" {
      FailExact(ClaudeItem, m, [], marshal);
    } else if HasStr(m, "content") {
      StrText(m, "content");
      TextExact(ClaudeItem, m, "content", Role(role), marshal);
      RoleIs(role, VStr(TextAt(m, "content")));
    } else if HasArr(m, "content") {
      ClaudeListExact(m, marshal);
    } else {
      FailExact(ClaudeItem, m, [], marshal);
    }
  }

  lemma ClaudeListExact(m: Json, marshal: JValue -> string)
    requires (TextAt(m, "role") == "user" || TextAt(m, "role") == "assistant") && HasArr(m, "content")
    ensures Exact(ProjectLevel(ClaudeItem, m, marshal), ClaudeOk(m), ClaudeLines(m, marshal))
  {
    ClaudeItemIs(m, marshal);
    hide StepOf, ProjectLevel, ProjectItems, Exact, Find, TextAt, Role, Joined, ClaudeBlockOk, ClaudeBlockSaid,
         ClaudeLine,
         Message, InList, Has, Get;
    var role, items := TextAt(m, "role"), Get(m, "content").items;
    var ok := seq(|items|, i requires 0 <= i < |items| => ClaudeBlockOk(items[i].value, role));
    var said := seq(|items|, i requires 0 <= i < |items| => ClaudeLine(items[i].value, role, marshal));
    forall i | 0 <= i < |items|
      ensures Exact(ProjectLevel(ClaudeContent(role), items[i].value, marshal), ok[i], said[i])
    {
      ClaudeBlockExact(items[i].value, role, marshal);
    }
    ListExact(ClaudeItem, m, "content", ClaudeContent(role), ok, said, marshal);
    AllIs(ok);
    if ClaudeOk(m) {
      ClaudeLinesAre(m, said, marshal);
    } else {
      NotTold(ClaudeItem, m, InList(m, "content", said), marshal);
    }
  }

  lemma AllIs(ok: seq<bool>)
    ensures All(ok) <==> forall i | 0 <= i < |ok| :: ok[i]
  {
  }

  lemma ClaudeLinesAre(m: Json, said: seq<seq<Said>>, marshal: JValue -> string)
    requires ClaudeOk(m) && Get(m, "content").Arr? && |said| == |Get(m, "content").items|
    requires forall i | 0 <= i < |said| ::
               said[i] == ClaudeLine(Get(m, "content").items[i].value, TextAt(m, "role"), marshal)
    ensures ClaudeLines(m, marshal) == InList(m, "content", said)
  {
    hide Find, TextAt, ClaudeBlockOk, ClaudeBlockSaid, InList;
    var items := Get(m, "content").items;
    assert said == seq(|items|, i requires 0 <= i < |items| =>
      ClaudeBlockSaid(items[i].value, TextAt(m, "role"), marshal));
  }

  /* ---------- system instructions ---------- */

  lemma SystemOne(text: string)
    ensures Tells([SystemText(text)], [], [Said(Message("system", VStr(text)), [])])
  {
    TellsFixed(SystemText(text), Said(Message("system", VStr(text)), []));
  }

  lemma {:induction false} SystemPartsExact(es: seq<Elem>)
    ensures SystemParts(es).Some? <==> forall i | 0 <= i < |es| :: es[i].value.Obj?
    ensures SystemParts(es).Some? ==> Tells(SystemParts(es).value, [], SystemSaid(es))
  {
    hide Tells, SystemText, Message, TextAt, Find;
    if es == [] {
      TellsNone();
    } else {
      SystemPartsExact(es[1..]);
      assert (forall i | 0 <= i < |es| :: es[i].value.Obj?)
        <==> es[0].value.Obj? && forall i | 0 <= i < |es[1..]| :: es[1..][i].value.Obj? by { Tail(es); }
      if SystemParts(es).Some? {
        var part := es[0].value;
        TellsNone();
        if StrAt(part, "text") { SystemOne(TextAt(part, "text")); }
        var none: seq<TextSlot> := [];
        TellsBoth(if StrAt(part, "text") then [SystemText(TextAt(part, "text"))] else [], none,
                  if HasStr(part, "text") then [Said(Message("system", VStr(TextAt(part, "text"))), [])] else [],
                  SystemParts(es[1..]).value, none, SystemSaid(es[1..]));
        assert none + none == none;
      }
    }
  }

  lemma Tail(es: seq<Elem>)
    requires es != []
    ensures (forall i | 0 <= i < |es| :: es[i].value.Obj?)
            <==> es[0].value.Obj? && forall i | 0 <= i < |es[1..]| :: es[1..][i].value.Obj?
  {
    assert forall i | 0 < i < |es| :: es[i] == es[1..][i - 1];
  }

  lemma TextObjects(v: Json)
    requires AllText(v, false)
    ensures forall i | 0 <= i < |v.items| :: v.items[i].value.Obj?
  {
    hide TextAt, Find;
  }

  lemma ClaudeSystemExact(root: Json)
    ensures root.Obj? ==> (ClaudeSystem(root).Some? <==> ClaudeSystemOk(root))
    ensures ClaudeSystem(root).Some? && ClaudeSystemOk(root) ==>
              Tells(ClaudeSystem(root).value, [], ClaudeSystemSaid(root))
  {
    hide Tells, SystemText, Message, TextOf, Find, AllText, SystemParts, SystemSaid, Blocks;
    TellsNone();
    if Has(root, "system") {
      var v := Get(root, "system");
      if v.Str? {
        SystemOne(TextOf(v));
      } else if v.Arr? {
        BlocksRefused(ClaudeText, v);
        SystemPartsExact(v.items);
        if AllText(v, false) { TextObjects(v); }
      } else {
        NotAllText(v);
      }
    }
  }

  lemma GeminiSystemExact(j: Json)
    ensures GeminiSystem(j).Some? <==> GeminiSystemOk(j)
    ensures GeminiSystem(j).Some? ==>
              Tells(GeminiSystem(j).value, [], GeminiSystemSaid(j))
  {
    hide Tells, Find, SystemParts, SystemSaid;
    TellsNone();
    var key := SystemKey(j);
    if Has(j, key) && HasArr(Get(j, key), "parts") { SystemPartsExact(Get(Get(j, key), "parts").items); }
  }

  lemma HasIsObject(j: Json, key: string)
    requires Has(j, key)
    ensures j.Obj?
  {
  }

  /** A level that goes into a list after some messages of its own. */
  lemma AfterExact(n: Level, j: Json, key: string, m: Level, before: seq<Template>, first: seq<Said>, ok: seq<bool>,
                   said: seq<seq<Said>>, marshal: JValue -> string)
    requires StepOf(n, j, marshal) == Into(before, key, EachItem(m)) && HasArr(j, key) && Tells(before, [], first)
    requires |ok| == |said| == |Get(j, key).items|
    requires forall i | 0 <= i < |ok| :: Exact(ProjectLevel(m, Get(j, key).items[i].value, marshal), ok[i], said[i])
    ensures Exact(ProjectLevel(n, j, marshal), All(ok), first + InList(j, key, said))
  {
    HasIsObject(j, key);
    hide StepOf, Find, Joined, ProjectItems, All, Has, Get, Tells, Lift;
    var items, k := Get(j, key).items, Find(j.items, key);
    ItemsExact(m, items, |items|, ok, said, marshal);
    EachIs(m, Get(j, key), marshal);
    if All(ok) {
      var p := ProjectItems(m, items, |items|, marshal).value;
      TellsLifted(k, p.templates, p.slots, Joined(said));
      TellsBoth(before, [], first, p.templates, Lift(k, p.slots), InList(j, key, said));
      assert [] + Lift(k, p.slots) == Lift(k, p.slots);
    }
  }
}
