/** Which texts of a payload are tool results, by the paths that lead to them. */
module PayloadPlaces {
  import opened JsonTree
  import opened JsonPaths
  import opened Protocol
  import opened PayloadSlots

  /** Item i of a list is an object. */
  predicate ObjItem(root: Json, list: Segs, i: nat) {
    i < |ItemsVal(root, list)| && ItemsVal(root, list)[i].value.Obj?
  }

  /** A text block: of one type, or in the Responses format of two. */
  predicate TextType(kind: Kind, name: string) {
    if kind == OpenAIResponses then name == "input_text" || name == "output_text" else name == "text"
  }

  /** The string at this path, or the text of a text block in the array there. */
  ghost predicate ResultText(root: Json, at: Segs, kind: Kind, segs: Segs) {
    if StrVal(root, at) then segs == at
    else exists k: nat ::
      && ObjItem(root, at, k) && TextType(kind, TextVal(root, at + [Index(k), Name("type")]))
      && segs == at + [Index(k), Name("text")] && StrVal(root, segs)
  }

  /** An object with a result says that it is an error. */
  predicate SaysError(root: Json, item: Segs) {
    TruthyVal(root, item + [Name("is_error")]) || TextVal(root, item + [Name("status")]) == "error"
  }

  /** The result of the call with this id, which is not empty. */
  ghost predicate ResultOf(root: Json, item: Segs, id: string, content: string, kind: Kind, t: Target) {
    && TextVal(root, item + [Name(id)]) != ""
    && t.mark == Mark(TextVal(root, item + [Name(id)]), kind, SaysError(root, item))
    && ResultText(root, item + [Name(content)], kind, t.segs)
  }

  /** A message of the role tool. */
  ghost predicate ChatResult(root: Json, t: Target) {
    var list := [Name("messages")];
    exists i: nat ::
      && ObjItem(root, list, i) && TextVal(root, list + [Index(i), Name("role")]) == "tool"
      && ResultOf(root, list + [Index(i)], "tool_call_id", "content", OpenAIChat, t)
  }

  /** An input item of one of the four output types. */
  ghost predicate ResponsesResult(root: Json, t: Target) {
    var list := [Name("input")];
    exists i: nat ::
      && ObjItem(root, list, i)
      && (var kind := TextVal(root, list + [Index(i), Name("type")]);
          kind == "custom_tool_call_output" || kind == "function_call_output" || kind == "local_shell_call_output"
          || kind == "apply_patch_call_output")
      && ResultOf(root, list + [Index(i)], "call_id", "output", OpenAIResponses, t)
  }

  /** Block k in the content of message i is a tool result. */
  ghost predicate ClaudeResultAt(root: Json, i: nat, k: nat, t: Target) {
    var blocks := [Name("messages"), Index(i), Name("content")];
    && ObjItem(root, blocks, k)
    && TextVal(root, blocks + [Index(k), Name("type")]) == "tool_result"
    && ResultOf(root, blocks + [Index(k)], "tool_use_id", "content", ClaudeMessages, t)
  }

  /** A tool_result block in the content of a message. */
  ghost predicate ClaudeResult(root: Json, t: Target) {
    exists i: nat, k: nat :: ObjItem(root, [Name("messages")], i) && ClaudeResultAt(root, i, k, t)
  }

  /** Part k of content i is a function response with an id or else a name; its result is the text. */
  ghost predicate GeminiResultAt(root: Json, list: Segs, i: nat, k: nat, t: Target) {
    var parts := list + [Index(i), Name("parts")];
    var reply := parts + [Index(k), Name("functionResponse")];
    var id, name := TextVal(root, reply + [Name("id")]), TextVal(root, reply + [Name("name")]);
    && ObjItem(root, parts, k) && ObjVal(root, reply) && (id != "" || name != "")
    && t.mark == Mark(if id != "" then id else name, Gemini,
                      SaysError(root, reply) || Val(root, reply + [Name("response"), Name("error")]).Some?)
    && t.segs == reply + [Name("response"), Name("result")] && StrVal(root, t.segs)
  }

  ghost predicate GeminiResult(root: Json, list: Segs, t: Target) {
    exists i: nat, k: nat :: ObjItem(root, list, i) && GeminiResultAt(root, list, i, k, t)
  }

  ghost predicate ToolResult(to: string, root: Json, t: Target) {
    if to == "openai" then ChatResult(root, t)
    else if to == "claude" then ClaudeResult(root, t)
    else if to == "gemini" then GeminiResult(root, [Name("contents")], t)
    else if to == "antigravity" then GeminiResult(root, [Name("request"), Name("contents")], t)
    else ResponsesResult(root, t)
  }

  /* ---------- the walks find these ---------- */

  lemma {:induction false} EachHas(n: Level, root: Json, segs: Segs, c: nat, t: Target)
    requires c <= |ItemsVal(root, segs)|
    ensures t in Each(n, root, segs, c)
            <==> exists i: nat :: i < c && ObjItem(root, segs, i) && t in OfItem(n, root, Nth(segs, i))
  {
    hide OfItem, ItemsVal, Nth;
    if c > 0 { EachHas(n, root, segs, c - 1, t); }
  }

  lemma AllHas(n: Level, root: Json, segs: Segs, t: Target)
    ensures t in All(n, root, segs)
            <==> exists i: nat :: ObjItem(root, segs, i) && t in OfItem(n, root, Nth(segs, i))
  {
    hide OfItem, ItemsVal, Nth, Each;
    EachHas(n, root, segs, |ItemsVal(root, segs)|, t);
  }

  lemma Joined(base: Segs, a: Seg, b: Seg)
    ensures base + [a] + [b] == base + [a, b]
  {
  }

  lemma BlockHas(mark: Mark, responses: bool, root: Json, at: Segs, k: nat, t: Target)
    requires responses == (mark.kind == OpenAIResponses)
    ensures t in OfItem(ResultBlock(mark, responses), root, Nth(at, k))
            <==> && TextType(mark.kind, TextVal(root, at + [Index(k), Name("type")]))
                 && t == Target(at + [Index(k), Name("text")], mark) && StrVal(root, t.segs)
  {
    Joined(at, Index(k), Name("type"));
    Joined(at, Index(k), Name("text"));
    hide StrVal, TextVal;
  }

  lemma ContentHas(root: Json, at: Segs, mark: Mark, responses: bool, t: Target)
    requires responses == (mark.kind == OpenAIResponses)
    ensures t in Content(root, at, mark, responses) <==> t.mark == mark && ResultText(root, at, mark.kind, t.segs)
  {
    hide StrVal, TextVal, All, OfItem, ItemsVal, TextType, ObjItem;
    AllHas(ResultBlock(mark, responses), root, at, t);
    forall k: nat
      ensures t in OfItem(ResultBlock(mark, responses), root, Nth(at, k))
              <==> && TextType(mark.kind, TextVal(root, at + [Index(k), Name("type")]))
                   && t == Target(at + [Index(k), Name("text")], mark) && StrVal(root, t.segs)
    {
      BlockHas(mark, responses, root, at, k, t);
    }
  }

  lemma ErrorSays(root: Json, item: Segs)
    ensures ErrorVal(root, item) == SaysError(root, item)
  {
    hide TextVal, TruthyVal;
  }

  lemma ChatHas(root: Json, item: Segs, t: Target)
    ensures t in OfItem(ChatMessage, root, item)
            <==> && TextVal(root, item + [Name("role")]) == "tool"
                 && ResultOf(root, item, "tool_call_id", "content", OpenAIChat, t)
  {
    hide StrVal, TextVal, Content, ResultText, ErrorVal, SaysError;
    ErrorSays(root, item);
    var id := TextVal(root, In(item, "tool_call_id"));
    ContentHas(root, In(item, "content"), Mark(id, OpenAIChat, ErrorVal(root, item)), false, t);
  }

  lemma ResponsesHas(root: Json, item: Segs, t: Target)
    ensures t in OfItem(ResponsesItem, root, item)
            <==> && (var kind := TextVal(root, item + [Name("type")]);
                     kind == "custom_tool_call_output" || kind == "function_call_output"
                     || kind == "local_shell_call_output" || kind == "apply_patch_call_output")
                 && ResultOf(root, item, "call_id", "output", OpenAIResponses, t)
  {
    hide StrVal, TextVal, Content, ResultText, ErrorVal, SaysError;
    ErrorSays(root, item);
    var id := TextVal(root, In(item, "call_id"));
    ContentHas(root, In(item, "output"), Mark(id, OpenAIResponses, ErrorVal(root, item)), true, t);
  }

  lemma ClaudeBlockHas(root: Json, item: Segs, t: Target)
    ensures t in OfItem(ClaudeBlock, root, item)
            <==> && TextVal(root, item + [Name("type")]) == "tool_result"
                 && ResultOf(root, item, "tool_use_id", "content", ClaudeMessages, t)
  {
    hide StrVal, TextVal, Content, ResultText, ErrorVal, SaysError;
    ErrorSays(root, item);
    var id := TextVal(root, In(item, "tool_use_id"));
    ContentHas(root, In(item, "content"), Mark(id, ClaudeMessages, ErrorVal(root, item)), false, t);
  }

  lemma PartHas(root: Json, item: Segs, t: Target)
    ensures t in OfItem(GeminiPart, root, item)
            <==> (var reply := item + [Name("functionResponse")];
                  var id, name := TextVal(root, reply + [Name("id")]), TextVal(root, reply + [Name("name")]);
                  && ObjVal(root, reply) && (id != "" || name != "")
                  && t.mark == Mark(if id != "" then id else name, Gemini,
                                    SaysError(root, reply)
                                        || Val(root, reply + [Name("response"), Name("error")]).Some?)
                  && t.segs == reply + [Name("response"), Name("result")] && StrVal(root, t.segs))
  {
    hide StrVal, TextVal, ObjVal, ErrorVal, SaysError, Val;
    var reply := item + [Name("functionResponse")];
    ErrorSays(root, reply);
    Joined(reply, Name("response"), Name("error"));
    Joined(reply, Name("response"), Name("result"));
  }

  lemma ChatTargets(root: Json, t: Target)
    ensures t in All(ChatMessage, root, [Name("messages")]) <==> ChatResult(root, t)
  {
    hide All, OfItem, ObjItem, TextVal, ResultOf;
    var list := [Name("messages")];
    AllHas(ChatMessage, root, list, t);
    forall i: nat
      ensures t in OfItem(ChatMessage, root, Nth(list, i))
              <==> && TextVal(root, list + [Index(i), Name("role")]) == "tool"
                   && ResultOf(root, list + [Index(i)], "tool_call_id", "content", OpenAIChat, t)
    {
      Joined(list, Index(i), Name("role"));
      ChatHas(root, Nth(list, i), t);
    }
  }

  lemma ResponsesTargets(root: Json, t: Target)
    ensures t in All(ResponsesItem, root, [Name("input")]) <==> ResponsesResult(root, t)
  {
    hide All, OfItem, ObjItem, TextVal, ResultOf;
    var list := [Name("input")];
    AllHas(ResponsesItem, root, list, t);
    forall i: nat
      ensures t in OfItem(ResponsesItem, root, Nth(list, i))
              <==> && (var kind := TextVal(root, list + [Index(i), Name("type")]);
                       kind == "custom_tool_call_output" || kind == "function_call_output"
                       || kind == "local_shell_call_output" || kind == "apply_patch_call_output")
                   && ResultOf(root, list + [Index(i)], "call_id", "output", OpenAIResponses, t)
    {
      Joined(list, Index(i), Name("type"));
      ResponsesHas(root, Nth(list, i), t);
    }
  }

  lemma ClaudeItemHas(root: Json, i: nat, t: Target)
    ensures t in OfItem(ClaudeMessage, root, Nth([Name("messages")], i)) <==> exists k: nat ::
                                                                                ClaudeResultAt(root, i, k, t)
  {
    hide All, ObjItem, TextVal, ResultOf;
    var blocks := [Name("messages"), Index(i), Name("content")];
    assert In(Nth([Name("messages")], i), "content") == blocks;
    AllHas(ClaudeBlock, root, blocks, t);
    forall k: nat
      ensures ObjItem(root, blocks, k) && t in OfItem(ClaudeBlock, root, Nth(blocks, k))
              <==> ClaudeResultAt(root, i, k, t)
    {
      Joined(blocks, Index(k), Name("type"));
      ClaudeBlockHas(root, Nth(blocks, k), t);
    }
    hide OfItem, ClaudeResultAt;
    assert OfItem(ClaudeMessage, root, Nth([Name("messages")], i)) == All(ClaudeBlock, root, blocks) by {
      ClaudeIs(root, i);
    }
  }

  lemma ClaudeIs(root: Json, i: nat)
    ensures OfItem(ClaudeMessage, root, Nth([Name("messages")], i))
            == All(ClaudeBlock, root, [Name("messages"), Index(i), Name("content")])
  {
    hide All;
    assert In(Nth([Name("messages")], i), "content") == [Name("messages"), Index(i), Name("content")];
  }

  lemma ClaudeTargets(root: Json, t: Target)
    ensures t in All(ClaudeMessage, root, [Name("messages")]) <==> ClaudeResult(root, t)
  {
    hide All, OfItem, ObjItem, TextVal, ResultOf;
    var list := [Name("messages")];
    AllHas(ClaudeMessage, root, list, t);
    forall i: nat
      ensures t in OfItem(ClaudeMessage, root, Nth(list, i)) <==> exists k: nat :: ClaudeResultAt(root, i, k, t)
    {
      ClaudeItemHas(root, i, t);
    }
    hide ClaudeResultAt;
  }

  lemma GeminiIs(root: Json, list: Segs, i: nat)
    ensures OfItem(GeminiContent, root, Nth(list, i)) == All(GeminiPart, root, list + [Index(i), Name("parts")])
  {
    hide All;
    Joined(list, Index(i), Name("parts"));
  }

  lemma GeminiItemHas(root: Json, list: Segs, i: nat, t: Target)
    ensures t in OfItem(GeminiContent, root, Nth(list, i)) <==> exists k: nat :: GeminiResultAt(root, list, i, k, t)
  {
    hide All, ObjItem, TextVal, ObjVal, StrVal, Val, SaysError, OfItem;
    var parts := list + [Index(i), Name("parts")];
    GeminiIs(root, list, i);
    AllHas(GeminiPart, root, parts, t);
    forall k: nat
      ensures ObjItem(root, parts, k) && t in OfItem(GeminiPart, root, Nth(parts, k))
              <==> GeminiResultAt(root, list, i, k, t)
    {
      Joined(parts, Index(k), Name("functionResponse"));
      PartHas(root, Nth(parts, k), t);
    }
    hide GeminiResultAt;
  }

  lemma GeminiTargets(root: Json, list: Segs, t: Target)
    ensures t in All(GeminiContent, root, list) <==> GeminiResult(root, list, t)
  {
    hide All, OfItem, ObjItem, TextVal, ObjVal, StrVal, Val, SaysError;
    AllHas(GeminiContent, root, list, t);
    forall i: nat
      ensures t in OfItem(GeminiContent, root, Nth(list, i)) <==> exists k: nat :: GeminiResultAt(root, list, i, k, t)
    {
      GeminiItemHas(root, list, i, t);
    }
    hide GeminiResultAt;
  }

  /**
   What is found are just the tool results of the payload, each with its call's id and whether it
   says that it is an error; they are listed list by list in the order of the items.
   */
  lemma TargetsAreResults(to: string, root: Json, t: Target)
    ensures t in Targets(to, root) <==> ToolResult(to, root, t)
    ensures forall i, k | 0 <= i < k < |Targets(to, root)| ::
              SegLt(Targets(to, root)[i].segs, Targets(to, root)[k].segs)
  {
    hide All, SegLt, ChatResult, ResponsesResult, ClaudeResult, GeminiResult;
    TargetsSorted(to, root);
    if to == "openai" { ChatTargets(root, t); }
    else if to == "claude" { ClaudeTargets(root, t); }
    else if to == "gemini" { GeminiTargets(root, [Name("contents")], t); }
    else if to == "antigravity" { GeminiTargets(root, [Name("request"), Name("contents")], t); }
    else { ResponsesTargets(root, t); }
  }

  lemma TargetsSorted(to: string, root: Json)
    ensures forall i, k | 0 <= i < k < |Targets(to, root)| ::
              SegLt(Targets(to, root)[i].segs, Targets(to, root)[k].segs)
  {
    hide SegLt, Each, StrVal, From, ItemsVal;
    EachSound(ListLevel(to), root, ListSegs(to), |ItemsVal(root, ListSegs(to))|);
  }
}
