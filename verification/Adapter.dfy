/**
 The Headroom adapter: every provider payload is projected to chat messages, and only text
 the projection declares may come back changed. A projection is a list of message templates
 with holes, and one slot per hole, in order; a slot is a string of the payload.
 */
module Projection {
  import opened Common
  import opened JsonText
  import opened JsonTree
  import opened JsonQuery
  import opened JsonSlots
  import opened JsonValue
  import opened Protocol

  type TextSlot = JsonSlots.Slot<()>
  type Members = map<string, JValue>

  datatype Content = Fixed(value: Option<JValue>) | TextHole | BlockHoles(blocks: seq<Members>)
  datatype Template = Template(members: Members, content: Content)
  datatype Projected = Projected(templates: seq<Template>, slots: seq<TextSlot>)

  datatype BlockKind = ChatText | ResponsesText | ClaudeText

  datatype Level =
    | ChatRoot | ChatItem
    | ResponsesRoot | MessageItem | OutputItem | OutputBlock(callId: string)
    | ClaudeRoot | ClaudeItem | ClaudeContent(role: string)
    | AntigravityRoot | GeminiRoot | GeminiItem | GeminiPiece(role: string)
    | GeminiReply | GeminiResult(callId: string)

  /** How a member's value is projected. */
  datatype Sub =
    | Hole(members: Members)                     // a string: one message
    | Holes(members: Members, kind: BlockKind)   // an array of text blocks: one message
    | Sole(members: Members, kind: BlockKind)    // the text of the only block: one message
    | EachItem(level: Level)
    | Down(level: Level)

  datatype Step = Fail | Emit(fixed: seq<Template>) | Into(before: seq<Template>, key: string, sub: Sub)

  predicate StrAt(j: Json, key: string) { Has(j, key) && Get(j, key).Str? }
  predicate ArrAt(j: Json, key: string) { Has(j, key) && Get(j, key).Arr? }
  predicate ObjAt(j: Json, key: string) { Has(j, key) && Get(j, key).Obj? }

  /** Present and not null. */
  predicate PresentAt(j: Json, key: string) { Has(j, key) && Get(j, key) != Lit("null") }

  function Role(role: string): Members { map["role" := VStr(role)] }
  function ToolReply(id: string): Members { map["role" := VStr("tool"), "tool_call_id" := VStr(id)] }

  function ToolCall(id: string, name: string, arguments: string): Template {
    Template(map["role" := VStr("assistant"), "content" := VStr(""),
                 "tool_calls" := VArr([VObj(map["id" := VStr(id), "type" := VStr("function"),
                   "function" := VObj(map["name" := VStr(name), "arguments" := VStr(arguments)])])])],
             Fixed(None))
  }

  function SystemText(text: string): Template {
    Template(map["role" := VStr("system"), "content" := VStr(text)], Fixed(None))
  }

  predicate ValidRole(role: string) {
    role == "system" || role == "developer" || role == "user" || role == "assistant" || role == "tool"
  }

  predicate Mutable(role: string) { role != "system" && role != "developer" }

  /* ---------- text blocks ---------- */

  /** The members of a block other than its text, if it is a text block of this kind. */
  function BlockMembers(k: BlockKind, b: Json): Option<Members> {
    var t := TextAt(b, "type");
    if !b.Obj? || !StrAt(b, "text") then None
    else match k
      case ChatText => if t == "text" then Some(Fields(b, "text")) else None
      case ResponsesText => if t == "input_text" || t == "output_text" then Some(map["type" := VStr("text")]) else None
      case ClaudeText => if t == "text" then Some(map["type" := VStr("text")]) else None
  }

  function BlockSlot(c: nat, b: Json): TextSlot
    requires StrAt(b, "text")
  {
    Slot([c, Find(b.items, "text")], TextAt(b, "text"), ())
  }

  /** The first c blocks of an array, if all of them are text blocks. */
  function Blocks(k: BlockKind, es: seq<Elem>, c: nat): Option<(seq<Members>, seq<TextSlot>)>
    requires c <= |es|
  {
    if c == 0 then Some(([], []))
    else
      var front, last := Blocks(k, es, c - 1), BlockMembers(k, es[c - 1].value);
      if front.None? || last.None? then None
      else Some((front.value.0 + [last.value], front.value.1 + [BlockSlot(c - 1, es[c - 1].value)]))
  }

  function BlockValue(members: Members, text: string): JValue { VObj(members["text" := VStr(text)]) }

  function BlockTexts(bs: seq<Members>, texts: seq<string>): JValue
    requires |bs| <= |texts|
  {
    VArr(seq(|bs|, i requires 0 <= i < |bs| => BlockValue(bs[i], texts[i])))
  }

  function Texts(ss: seq<TextSlot>): (r: seq<string>)
    ensures |r| == |ss|
  {
    seq(|ss|, i requires 0 <= i < |ss| => ss[i].text)
  }

  /* ---------- object levels ---------- */

  predicate ToolCallOk(c: Json) {
    && TextAt(c, "type") == "function" && TextAt(c, "id") != "" && ObjAt(c, "function")
    && TextAt(Get(c, "function"), "name") != "" && StrAt(Get(c, "function"), "arguments")
  }

  predicate ToolFieldsOk(m: Json, role: string) {
    && (role == "tool" ==> TextAt(m, "tool_call_id") != "")
    && (Has(m, "tool_calls") ==>
          role == "assistant" && Get(m, "tool_calls").Arr?
          && forall i | 0 <= i < |Get(m, "tool_calls").items| :: ToolCallOk(Get(m, "tool_calls").items[i].value))
  }

  function ChatStep(m: Json): Step
    requires m.Obj?
  {
    var role := TextAt(m, "role");
    var members := Fields(m, "content");
    var callsOnly := role == "assistant" && PresentAt(m, "tool_calls");
    if !ValidRole(role) || !ToolFieldsOk(m, role) then Fail
    else if !Has(m, "content") then if callsOnly then Emit([Template(members, Fixed(None))]) else Fail
    else
      var content := Get(m, "content");
      if content.Str? then
        if Mutable(role) then Into([], "content", Hole(members))
        else Emit([Template(members, Fixed(Some(Value(content))))])
      else if content.Arr? then
        if Mutable(role) then Into([], "content", Holes(members, ChatText))
        else if Blocks(ChatText, content.items, |content.items|).Some? then
          Emit([Template(members, Fixed(Some(Value(content))))])
        else Fail
      else if content == Lit("null") && callsOnly then Emit([Template(members, Fixed(Some(VLit("null"))))])
      else Fail
  }

  function MessageStep(m: Json): Step
    requires m.Obj?
  {
    var role := TextAt(m, "role");
    if TextAt(m, "type") != "message" || !ValidRole(role) || role == "tool" || !Has(m, "content") then Fail
    else
      var content := Get(m, "content");
      if content.Str? then
        if Mutable(role) then Into([], "content", Hole(Role(role)))
        else Emit([Template(Role(role), Fixed(Some(VStr(TextOf(content)))))])
      else if content.Arr? then
        if Mutable(role) then
          Into([], "content",
               if |content.items| == 1 then Sole(Role(role), ResponsesText) else Holes(Role(role), ResponsesText))
        else
          var bs := Blocks(ResponsesText, content.items, |content.items|);
          if bs.None? then Fail
          else if |content.items| == 1 then
            Emit([Template(Role(role), Fixed(Some(VStr(TextAt(content.items[0].value, "text")))))])
          else
            BlocksCount(ResponsesText, content.items, |content.items|);
            Emit([Template(Role(role), Fixed(Some(BlockTexts(bs.value.0, Texts(bs.value.1)))))])
      else Fail
  }

  lemma {:induction false} BlocksCount(k: BlockKind, es: seq<Elem>, c: nat)
    requires c <= |es| && Blocks(k, es, c).Some?
    ensures |Blocks(k, es, c).value.0| == |Blocks(k, es, c).value.1| == c
  {
    hide BlockMembers, BlockSlot;
    if c > 0 { BlocksCount(k, es, c - 1); }
  }

  function OutputStep(m: Json): Step
    requires m.Obj?
  {
    var id := TextAt(m, "call_id");
    if !OutputType(TextAt(m, "type")) || id == "" || !Has(m, "output") then Emit([])
    else if Get(m, "output").Str? then Into([], "output", Hole(ToolReply(id)))
    else if Get(m, "output").Arr? then Into([], "output", EachItem(OutputBlock(id)))
    else Emit([])
  }

  /** The system instruction of a Gemini request as fixed messages. */
  function GeminiSystem(request: Json): Option<seq<Template>> {
    var key := if Has(request, "systemInstruction") then "systemInstruction" else "system_instruction";
    if !Has(request, key) then Some([])
    else if !ArrAt(Get(request, key), "parts") then None
    else SystemParts(Get(Get(request, key), "parts").items)
  }

  function SystemParts(es: seq<Elem>): Option<seq<Template>> {
    if es == [] then Some([])
    else
      var part, rest := es[0].value, SystemParts(es[1..]);
      if !part.Obj? || rest.None? then None
      else Some((if StrAt(part, "text") then [SystemText(TextAt(part, "text"))] else []) + rest.value)
  }

  function ClaudeSystem(root: Json): Option<seq<Template>> {
    if !Has(root, "system") then Some([])
    else
      var system := Get(root, "system");
      if system.Str? then Some([SystemText(TextOf(system))])
      else if system.Arr? && Blocks(ClaudeText, system.items, |system.items|).Some? then SystemParts(system.items)
      else None
  }

  function PartStep(part: Json, role: string, marshal: JValue -> string): Step
    requires part.Obj?
  {
    if Has(part, "text") then
      if !StrAt(part, "text") then Fail
      else if !Has(part, "thought") || Get(part, "thought") == Lit("false") then
        Into([], "text", Hole(Role(if role == "model" then "assistant" else role)))
      else if Get(part, "thought") == Lit("true") then Emit([])
      else Fail
    else if Has(part, "functionCall") then
      var call := Get(part, "functionCall");
      var name := TextAt(call, "name");
      if role != "model" || !call.Obj? || name == "" || !Has(call, "args") then Fail
      else Emit([ToolCall(GeminiId(call), name, marshal(Value(Get(call, "args"))))])
    else if Has(part, "functionResponse") then
      if role != "user" || !ObjAt(part, "functionResponse") then Fail
      else Into([], "functionResponse", Down(GeminiReply))
    else Emit([])
  }

  function ClaudeBlockStep(block: Json, role: string, marshal: JValue -> string): Step
    requires block.Obj?
  {
    var kind := TextAt(block, "type");
    if kind == "text" then if StrAt(block, "text") then Into([], "text", Hole(Role(role))) else Fail
    else if kind == "tool_use" then
      if role != "assistant" || TextAt(block, "id") == "" || TextAt(block, "name") == "" || !Has(block, "input")
      then Fail
      else Emit([ToolCall(TextAt(block, "id"), TextAt(block, "name"), marshal(Value(Get(block, "input"))))])
    else if kind == "tool_result" then
      var id := TextAt(block, "tool_use_id");
      if role != "user" || id == "" then Fail
      else if StrAt(block, "content") then Into([], "content", Hole(ToolReply(id)))
      else if ArrAt(block, "content") then Into([], "content", Holes(ToolReply(id), ClaudeText))
      else Fail
    else Fail
  }

  /** Some input item is a tool output, so the payload is projected by its outputs alone. */
  predicate AnyOutput(input: Json) {
    exists i | 0 <= i < |Items(input)| :: OutputType(TextAt(Items(input)[i].value, "type"))
  }

  predicate NonEmptyArrAt(j: Json, key: string) { ArrAt(j, key) && Get(j, key).items != [] }

  function StepOf(n: Level, j: Json, marshal: JValue -> string): Step {
    if !j.Obj? then if n.OutputItem? || n.OutputBlock? then Emit([]) else Fail
    else match n
      case ChatRoot => if NonEmptyArrAt(j, "messages") then Into([], "messages", EachItem(ChatItem)) else Fail
      case ChatItem => ChatStep(j)
      case ResponsesRoot =>
        if !NonEmptyArrAt(j, "input") then Fail
        else Into([], "input", EachItem(if AnyOutput(Get(j, "input")) then OutputItem else MessageItem))
      case MessageItem => MessageStep(j)
      case OutputItem => OutputStep(j)
      case OutputBlock(id) =>
        if (TextAt(j, "type") == "input_text" || TextAt(j, "type") == "output_text") && StrAt(j, "text")
        then Into([], "text", Hole(ToolReply(id))) else Emit([])
      case ClaudeRoot =>
        if ClaudeSystem(j).None? || !NonEmptyArrAt(j, "messages") then Fail
        else Into(ClaudeSystem(j).value, "messages", EachItem(ClaudeItem))
      case ClaudeItem =>
        var role := TextAt(j, "role");
        if role != "user" && role != "assistant" then Fail
        else if StrAt(j, "content") then Into([], "content", Hole(Role(role)))
        else if ArrAt(j, "content") then Into([], "content", EachItem(ClaudeContent(role)))
        else Fail
      case ClaudeContent(role) => ClaudeBlockStep(j, role, marshal)
      case AntigravityRoot => if ObjAt(j, "request") then Into([], "request", Down(GeminiRoot)) else Fail
      case GeminiRoot =>
        if GeminiSystem(j).None? || !NonEmptyArrAt(j, "contents") then Fail
        else Into(GeminiSystem(j).value, "contents", EachItem(GeminiItem))
      case GeminiItem =>
        var role := TextAt(j, "role");
        if (role != "user" && role != "model") || !ArrAt(j, "parts") then Fail
        else Into([], "parts", EachItem(GeminiPiece(role)))
      case GeminiPiece(role) => PartStep(j, role, marshal)
      case GeminiReply =>
        if GeminiId(j) == "" || !ObjAt(j, "response") then Fail
        else Into([], "response", Down(GeminiResult(GeminiId(j))))
      case GeminiResult(id) => if StrAt(j, "result") then Into([], "result", Hole(ToolReply(id))) else Fail
  }

  function ProjectLevel(n: Level, j: Json, marshal: JValue -> string): Option<Projected>
    decreases j, 0
  {
    match StepOf(n, j, marshal)
    case Fail => None
    case Emit(ts) => Some(Projected(ts, []))
    case Into(before, key, sub) =>
      if !Has(j, key) then None
      else
        match ProjectSub(sub, Get(j, key), marshal)
        case None => None
        case Some(p) => Some(Projected(before + p.templates, Lift(Find(j.items, key), p.slots)))
  }

  function ProjectSub(sub: Sub, v: Json, marshal: JValue -> string): Option<Projected>
    decreases v, 1
  {
    match sub
    case Hole(members) =>
      if v.Str? then Some(Projected([Template(members, TextHole)], [Slot([], Decode(v.raw), ())])) else None
    case Holes(members, kind) =>
      if !v.Arr? then None
      else
        var bs := Blocks(kind, v.items, |v.items|);
        if bs.None? then None else Some(Projected([Template(members, BlockHoles(bs.value.0))], bs.value.1))
    case Sole(members, kind) =>
      if !v.Arr? || |v.items| != 1 || BlockMembers(kind, v.items[0].value).None? then None
      else Some(Projected([Template(members, TextHole)], [BlockSlot(0, v.items[0].value)]))
    case EachItem(n) => if v.Arr? then ProjectItems(n, v.items, |v.items|, marshal) else None
    case Down(n) => ProjectLevel(n, v, marshal)
  }

  function ProjectItems(n: Level, es: seq<Elem>, c: nat, marshal: JValue -> string): Option<Projected>
    requires c <= |es|
    decreases es, c
  {
    if c == 0 then Some(Projected([], []))
    else
      var front, last := ProjectItems(n, es, c - 1, marshal), ProjectLevel(n, es[c - 1].value, marshal);
      if front.None? || last.None? then None
      else Some(Projected(front.value.templates + last.value.templates,
                          front.value.slots + Lift(c - 1, last.value.slots)))
  }

  function RootLevel(to: string): Level {
    if to == "openai" then ChatRoot
    else if to == "claude" then ClaudeRoot
    else if to == "gemini" then GeminiRoot
    else if to == "antigravity" then AntigravityRoot
    else ResponsesRoot
  }

  /** The projection of a payload's root; None when the structure is not supported. */
  function Project(to: string, root: Json, marshal: JValue -> string): Option<Projected> {
    if UniqueNames(root) then ProjectLevel(RootLevel(to), root, marshal) else None
  }
}
