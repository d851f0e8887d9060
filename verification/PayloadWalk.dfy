/** The walkers as the source runs them: loops that look up paths and append the texts they find. */
module PayloadWalks {
  import opened JsonText
  import opened JsonTree
  import opened JsonSlots
  import opened JsonPaths
  import opened Protocol
  import opened PayloadSlots
  import opened Payloads

  /* ---------- what one more step adds ---------- */

  lemma Strings(n: Level, root: Json, segs: Segs)
    ensures forall c: nat | c <= |ItemsVal(root, segs)| :: AllStrings(root, Each(n, root, segs, c))
    ensures forall base :: AllStrings(root, OfItem(n, root, base))
  {
    hide Each, OfItem, ItemsVal, StrVal, SegLt;
    forall c: nat | c <= |ItemsVal(root, segs)| ensures AllStrings(root, Each(n, root, segs, c)) {
      EachSound(n, root, segs, c);
    }
    forall base ensures AllStrings(root, OfItem(n, root, base)) { ItemSound(n, root, base); }
  }

  lemma EachMore(n: Level, root: Json, segs: Segs, i: nat)
    requires i < |ItemsVal(root, segs)|
    ensures AllStrings(root, Each(n, root, segs, i)) && AllStrings(root, Each(n, root, segs, i + 1))
    ensures AllStrings(root, OfItem(n, root, Nth(segs, i)))
    ensures SlotsAt(root, Each(n, root, segs, i + 1))
            == SlotsAt(root, Each(n, root, segs, i))
               + if ItemsVal(root, segs)[i].value.Obj? then SlotsAt(root, OfItem(n, root, Nth(segs, i))) else []
  {
    Strings(n, root, segs);
    hide OfItem, ItemsVal, StrVal, SlotAt;
  }

  lemma EachNone(n: Level, root: Json, segs: Segs)
    ensures AllStrings(root, Each(n, root, segs, 0)) && SlotsAt(root, Each(n, root, segs, 0)) == []
  {
    hide StrVal, ItemsVal;
  }

  class PayloadView {
    const root: Json
    var slots: seq<Protocol.Slot>

    constructor (root: Json)
      ensures this.root == root && slots == []
    {
      this.root := root;
      slots := [];
    }

    /** A value that is not a string is no slot. */
    method Add(segs: Segs, mark: Mark)
      modifies this`slots
      ensures AllStrings(root, Leaf(root, segs, mark))
      ensures slots == old(slots) + SlotsAt(root, Leaf(root, segs, mark))
    {
      hide Lookup, Decode, Follows;
      if StrVal(root, segs) {
        slots := slots + [JsonSlots.Slot(Lookup(root, segs).value, TextVal(root, segs), mark)];
      }
    }

    /** The text blocks of one result. */
    method AddBlocks(segs: Segs, mark: Mark, responses: bool)
      modifies this`slots
      ensures AllStrings(root, All(ResultBlock(mark, responses), root, segs))
      ensures slots == old(slots) + SlotsAt(root, All(ResultBlock(mark, responses), root, segs))
    {
      hide Each, ItemsVal, StrVal, TextVal, SlotsAt, Leaf;
      EachNone(ResultBlock(mark, responses), root, segs);
      for j: nat := 0 to |ItemsVal(root, segs)|
        invariant AllStrings(root, Each(ResultBlock(mark, responses), root, segs, j))
        invariant slots == old(slots) + SlotsAt(root, Each(ResultBlock(mark, responses), root, segs, j))
      {
        EachMore(ResultBlock(mark, responses), root, segs, j);
        var block := Nth(segs, j);
        var kind := TextVal(root, In(block, "type"));
        var wanted := if responses then kind == "input_text" || kind == "output_text" else kind == "text";
        if ItemsVal(root, segs)[j].value.Obj? && wanted { Add(In(block, "text"), mark); } else { NoSlots(root); }
      }
    }

    /** A result's content: one text, or blocks. */
    method AddContent(segs: Segs, mark: Mark, responses: bool)
      modifies this`slots
      ensures AllStrings(root, Content(root, segs, mark, responses))
      ensures slots == old(slots) + SlotsAt(root, Content(root, segs, mark, responses))
    {
      hide All, StrVal, SlotsAt;
      if StrVal(root, segs) {
        Add(segs, mark);
        return;
      }
      AddBlocks(segs, mark, responses);
    }

    method WalkChat()
      modifies this`slots
      ensures AllStrings(root, All(ChatMessage, root, [Name("messages")]))
      ensures slots == old(slots) + SlotsAt(root, All(ChatMessage, root, [Name("messages")]))
    {
      hide Each, ItemsVal, StrVal, TextVal, SlotsAt, Content, ErrorVal, In;
      var messages := [Name("messages")];
      EachNone(ChatMessage, root, messages);
      for i: nat := 0 to |ItemsVal(root, messages)|
        invariant AllStrings(root, Each(ChatMessage, root, messages, i))
        invariant slots == old(slots) + SlotsAt(root, Each(ChatMessage, root, messages, i))
      {
        EachMore(ChatMessage, root, messages, i);
        NoSlots(root);
        var base := Nth(messages, i);
        if !ItemsVal(root, messages)[i].value.Obj? || TextVal(root, In(base, "role")) != "tool" { continue; }
        var resultID := TextVal(root, In(base, "tool_call_id"));
        if resultID == "" { continue; }
        AddContent(In(base, "content"), Mark(resultID, OpenAIChat, ErrorVal(root, base)), false);
      }
    }

    method WalkResponses()
      modifies this`slots
      ensures AllStrings(root, All(ResponsesItem, root, [Name("input")]))
      ensures slots == old(slots) + SlotsAt(root, All(ResponsesItem, root, [Name("input")]))
    {
      hide Each, ItemsVal, StrVal, TextVal, SlotsAt, Content, ErrorVal, In, OutputType;
      var input := [Name("input")];
      EachNone(ResponsesItem, root, input);
      for i: nat := 0 to |ItemsVal(root, input)|
        invariant AllStrings(root, Each(ResponsesItem, root, input, i))
        invariant slots == old(slots) + SlotsAt(root, Each(ResponsesItem, root, input, i))
      {
        EachMore(ResponsesItem, root, input, i);
        NoSlots(root);
        var base := Nth(input, i);
        if !ItemsVal(root, input)[i].value.Obj? { continue; }
        if !OutputType(TextVal(root, In(base, "type"))) { continue; }
        var resultID := TextVal(root, In(base, "call_id"));
        if resultID == "" { continue; }
        AddContent(In(base, "output"), Mark(resultID, OpenAIResponses, ErrorVal(root, base)), true);
      }
    }

    method WalkClaudeBlocks(segs: Segs)
      modifies this`slots
      ensures AllStrings(root, All(ClaudeBlock, root, segs))
      ensures slots == old(slots) + SlotsAt(root, All(ClaudeBlock, root, segs))
    {
      hide Each, ItemsVal, StrVal, TextVal, SlotsAt, Content, ErrorVal, In;
      EachNone(ClaudeBlock, root, segs);
      for j: nat := 0 to |ItemsVal(root, segs)|
        invariant AllStrings(root, Each(ClaudeBlock, root, segs, j))
        invariant slots == old(slots) + SlotsAt(root, Each(ClaudeBlock, root, segs, j))
      {
        EachMore(ClaudeBlock, root, segs, j);
        NoSlots(root);
        var base := Nth(segs, j);
        if !ItemsVal(root, segs)[j].value.Obj? || TextVal(root, In(base, "type")) != "tool_result" { continue; }
        var resultID := TextVal(root, In(base, "tool_use_id"));
        if resultID == "" { continue; }
        AddContent(In(base, "content"), Mark(resultID, ClaudeMessages, ErrorVal(root, base)), false);
      }
    }

    method WalkClaude()
      modifies this`slots
      ensures AllStrings(root, All(ClaudeMessage, root, [Name("messages")]))
      ensures slots == old(slots) + SlotsAt(root, All(ClaudeMessage, root, [Name("messages")]))
    {
      hide Each, ItemsVal, StrVal, SlotsAt, In, All;
      var messages := [Name("messages")];
      AllIsEach(ClaudeMessage, root, messages);
      EachNone(ClaudeMessage, root, messages);
      for i: nat := 0 to |ItemsVal(root, messages)|
        invariant AllStrings(root, Each(ClaudeMessage, root, messages, i))
        invariant slots == old(slots) + SlotsAt(root, Each(ClaudeMessage, root, messages, i))
      {
        EachMore(ClaudeMessage, root, messages, i);
        NoSlots(root);
        if !ItemsVal(root, messages)[i].value.Obj? { continue; }
        WalkClaudeBlocks(In(Nth(messages, i), "content"));
      }
    }

    method WalkParts(segs: Segs)
      modifies this`slots
      ensures AllStrings(root, All(GeminiPart, root, segs))
      ensures slots == old(slots) + SlotsAt(root, All(GeminiPart, root, segs))
    {
      hide Each, ItemsVal, StrVal, ObjVal, TextVal, SlotsAt, ErrorVal, ResponseId, In, Leaf;
      EachNone(GeminiPart, root, segs);
      for j: nat := 0 to |ItemsVal(root, segs)|
        invariant AllStrings(root, Each(GeminiPart, root, segs, j))
        invariant slots == old(slots) + SlotsAt(root, Each(GeminiPart, root, segs, j))
      {
        EachMore(GeminiPart, root, segs, j);
        NoSlots(root);
        var base := In(Nth(segs, j), "functionResponse");
        if !ItemsVal(root, segs)[j].value.Obj? || !ObjVal(root, base) { continue; }
        var resultID := ResponseId(root, base);
        if resultID == "" { continue; }
        var error := ErrorVal(root, base) || Val(root, In(In(base, "response"), "error")).Some?;
        Add(In(In(base, "response"), "result"), Mark(resultID, Gemini, error));
      }
    }

    method WalkGemini(contents: Segs)
      modifies this`slots
      ensures AllStrings(root, All(GeminiContent, root, contents))
      ensures slots == old(slots) + SlotsAt(root, All(GeminiContent, root, contents))
    {
      hide Each, ItemsVal, StrVal, SlotsAt, In, All;
      AllIsEach(GeminiContent, root, contents);
      EachNone(GeminiContent, root, contents);
      for i: nat := 0 to |ItemsVal(root, contents)|
        invariant AllStrings(root, Each(GeminiContent, root, contents, i))
        invariant slots == old(slots) + SlotsAt(root, Each(GeminiContent, root, contents, i))
      {
        EachMore(GeminiContent, root, contents, i);
        NoSlots(root);
        if !ItemsVal(root, contents)[i].value.Obj? { continue; }
        WalkParts(In(Nth(contents, i), "parts"));
      }
    }
  }

  lemma NoSlots(root: Json)
    ensures AllStrings(root, []) && SlotsAt(root, []) == []
  {
  }

  lemma AllIsEach(n: Level, root: Json, segs: Segs)
    ensures All(n, root, segs) == Each(n, root, segs, |ItemsVal(root, segs)|)
  {
  }

  /** The slots of a recognized root, as the loops collect them. */
  method Walk(to: string, root: Json) returns (slots: seq<Protocol.Slot>)
    requires Recognized(to, root)
    ensures slots == Found(to, root)
  {
    hide All, SlotsAt, ArrVal;
    var view := new PayloadView(root);
    if to == "openai" {
      view.WalkChat();
    } else if to == "claude" {
      view.WalkClaude();
    } else if to == "gemini" {
      view.WalkGemini([Name("contents")]);
    } else if to == "antigravity" {
      view.WalkGemini([Name("request"), Name("contents")]);
    } else {
      view.WalkResponses();
    }
    slots := view.slots;
    FoundIs(to, root);
  }

  lemma FoundIs(to: string, root: Json)
    ensures AllStrings(root, Targets(to, root)) && Found(to, root) == SlotsAt(root, Targets(to, root))
  {
    TargetsAreSlots(to, root);
    hide Targets, SlotsOf;
  }
}
