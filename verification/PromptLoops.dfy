/** The loops that collect instruction texts and arrays, against the walks that specify them. */
module PromptLoops {
  import opened Common
  import opened JsonText
  import opened JsonTree
  import opened JsonEdit
  import opened JsonQuery
  import opened JsonSlots
  import opened JsonGrow
  import opened Protocol
  import opened PromptSites
  import opened PromptGrowth

  predicate TextBlockOk(part: Json, kind: string) {
    part.Obj? && (kind == "" || TextAt(part, "type") == kind) && Has(part, "text") && Get(part, "text").Str?
  }

  lemma BlockSlots(part: Json, kind: string)
    ensures Slots(One(TextBlock(kind)), part)
            == if TextBlockOk(part, kind)
               then [Slot([Find(part.items, "text")], Decode(Get(part, "text").raw), PROMPT)] else []
  {
    hide Decode, Find, TextAt;
    if TextBlockOk(part, kind) {
      assert Slots(Text(PROMPT), Get(part, "text")) == [Slot([], Decode(Get(part, "text").raw), PROMPT)];
      assert [Find(part.items, "text")] + [] == [Find(part.items, "text")];
    }
  }

  lemma BlockStep(es: seq<Elem>, kind: string, i: nat)
    requires i < |es|
    ensures var part, before := es[i].value, EachSlots(TextBlock(kind), es, i);
            EachSlots(TextBlock(kind), es, i + 1)
            == if TextBlockOk(part, kind)
               then before + [Slot([i, Find(part.items, "text")], Decode(Get(part, "text").raw), PROMPT)] else before
  {
    hide Slots, EachSlots, Decode, Find, TextAt, Lift;
    var part := es[i].value;
    EachStep(TextBlock(kind), es, i + 1);
    BlockSlots(part, kind);
    if TextBlockOk(part, kind) { LiftPair(i, Find(part.items, "text"), Decode(Get(part, "text").raw)); }
  }

  lemma LiftPair(i: nat, k: nat, text: string)
    ensures Lift(i, [Slot([k], text, PROMPT)]) == [Slot([i, k], text, PROMPT)]
  {
    assert [i] + [k] == [i, k];
  }

  method TextBlockTargets(parts: Json, kind: string) returns (texts: seq<Protocol.Slot>)
    requires parts.Arr?
    ensures texts == Slots(EachOf(TextBlock(kind)), parts)
  {
    texts := [];
    hide Slots, EachSlots, Decode, TextAt, Find;
    EachOfSlots(TextBlock(kind), parts);
    NoneYet(TextBlock(kind), parts.items);
    for i := 0 to |parts.items|
      invariant texts == EachSlots(TextBlock(kind), parts.items, i)
    {
      var part := parts.items[i].value;
      BlockStep(parts.items, kind, i);
      if !part.Obj? { continue; }
      if kind != "" && TextAt(part, "type") != kind { continue; }
      if Has(part, "text") && Get(part, "text").Str? {
        texts := texts + [Slot([i, Find(part.items, "text")], Decode(Get(part, "text").raw), PROMPT)];
      }
    }
  }

  lemma NoneYet(n: Node, es: seq<Elem>)
    ensures EachSlots(n, es, 0) == [] && EachArrays(n, es, 0) == []
  {
  }

  predicate InstructionOk(m: Json) {
    m.Obj? && (TextAt(m, "role") == "system" || TextAt(m, "role") == "developer") && Has(m, "content")
  }

  /** What one message adds, relative to it. */
  function MessageTexts(m: Json, kind: string): seq<Protocol.Slot> {
    if !InstructionOk(m) then []
    else
      var k, v := Find(m.items, "content"), Get(m, "content");
      if v.Str? then [Slot([k], Decode(v.raw), PROMPT)]
      else if v.Arr? then Lift(k, Slots(EachOf(TextBlock(kind)), v))
      else []
  }

  lemma MessageStep(es: seq<Elem>, kind: string, i: nat)
    requires i < |es|
    ensures var m, n := es[i].value, Instruction(kind);
            && EachSlots(n, es, i + 1) == EachSlots(n, es, i) + Lift(i, MessageTexts(m, kind))
            && EachArrays(n, es, i + 1) == EachArrays(n, es, i)
               + if InstructionOk(m) && Get(m, "content").Arr? then [Two(i, Find(m.items, "content"))] else []
  {
    EachStep(Instruction(kind), es, i + 1);
    InnerTexts(es[i].value, kind);
    ArraysStep(es, kind, i);
    hide *;
  }

  function Two(i: nat, k: nat): Path { [i, k] }

  lemma ArraysStep(es: seq<Elem>, kind: string, i: nat)
    requires i < |es|
    ensures var m, n := es[i].value, Instruction(kind);
            EachArrays(n, es, i + 1) == EachArrays(n, es, i)
              + if InstructionOk(m) && Get(m, "content").Arr? then [Two(i, Find(m.items, "content"))] else []
  {
    InnerArrays(es[i].value, kind);
    hide Arrays, Decode, TextAt, Find, InstructionOk;
    var m := es[i].value;
    if InstructionOk(m) && Get(m, "content").Arr? {
      assert LiftPaths(i, [[Find(m.items, "content")]]) == [Two(i, Find(m.items, "content"))] by {
        assert [i] + [Find(m.items, "content")] == [i, Find(m.items, "content")];
      }
    }
  }

  lemma InnerTexts(m: Json, kind: string)
    ensures Slots(One(Instruction(kind)), m) == MessageTexts(m, kind)
  {
    hide Decode, TextAt, Find, EachSlots;
    if InstructionOk(m) {
      var v, w := Get(m, "content"), TextOrEach(PROMPT, TextBlock(kind));
      assert Slots(One(Instruction(kind)), m) == Lift(Find(m.items, "content"), Slots(w, v));
      if v.Str? {
        assert Slots(w, v) == [Slot([], Decode(v.raw), PROMPT)];
        assert [Find(m.items, "content")] + [] == [Find(m.items, "content")];
      } else {
        assert Slots(w, v) == Slots(EachOf(TextBlock(kind)), v);
      }
    }
  }

  lemma InnerArrays(m: Json, kind: string)
    ensures Arrays(One(Instruction(kind)), m)
            == if InstructionOk(m) && Get(m, "content").Arr? then [[Find(m.items, "content")]] else []
  {
    hide Decode, TextAt, Find;
    if InstructionOk(m) && Get(m, "content").Arr? {
      assert Arrays(TextOrEach(PROMPT, TextBlock(kind)), Get(m, "content")) == [[]];
      assert [Find(m.items, "content")] + [] == [Find(m.items, "content")];
    }
  }

  /** One turn of the loop: the texts of a message, and its content's index if that is an array. */
  method MessageTargets(message: Json, kind: string) returns (texts: seq<Protocol.Slot>, content: Option<nat>)
    ensures texts == MessageTexts(message, kind)
    ensures content == if InstructionOk(message) && Get(message, "content").Arr?
                       then Some(Find(message.items, "content")) else None
  {
    texts, content := [], None;
    hide Slots, Decode, TextAt, Find, Lift;
    if !message.Obj? { return; }
    if TextAt(message, "role") != "system" && TextAt(message, "role") != "developer" { return; }
    if !Has(message, "content") { return; }
    var k, value := Find(message.items, "content"), Get(message, "content");
    if value.Str? { return [Slot([k], Decode(value.raw), PROMPT)], None; }
    if value.Arr? {
      var found := TextBlockTargets(value, kind);
      texts, content := Lift(k, found), Some(k);
    }
  }

  lemma EachOfArrays(kind: string, j: Json)
    requires j.Arr?
    ensures Arrays(EachOf(Instruction(kind)), j) == EachArrays(Instruction(kind), j.items, |j.items|)
  {
    hide EachArrays;
  }

  method MessageInstructionTargets(messages: Json, kind: string) returns (texts: seq<Protocol.Slot>, arrays: seq<Path>)
    requires messages.Arr?
    ensures texts == Slots(EachOf(Instruction(kind)), messages)
    ensures arrays == Arrays(EachOf(Instruction(kind)), messages)
  {
    hide *;
    texts, arrays := [], [];
    EachOfSlots(Instruction(kind), messages);
    EachOfArrays(kind, messages);
    NoneYet(Instruction(kind), messages.items);
    for i: nat := 0 to |messages.items|
      invariant texts == EachSlots(Instruction(kind), messages.items, i)
      invariant arrays == EachArrays(Instruction(kind), messages.items, i)
    {
      MessageStep(messages.items, kind, i);
      var found, content := MessageTargets(messages.items[i].value, kind);
      texts := texts + Lift(i, found);
      arrays := arrays + if content.Some? then [Two(i, content.value)] else [];
    }
  }

  /** One insertion, or the body unchanged when there is nothing to insert or no such position. */
  method InsertBytes(body: string, position: int, insertion: string) returns (out: string)
    ensures out == if 0 <= position <= |body| then Insert(body, position, insertion) else body
  {
    if position < 0 || position > |body| || |insertion| == 0 {
      assert 0 <= position <= |body| && insertion == "" ==> body[..position] + "" + body[position..] == body;
      return body;
    }
    out := [];
    out := out + body[..position];
    out := out + insertion;
    out := out + body[position..];
  }
}
