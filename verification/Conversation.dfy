/**
 What a payload says: the chat messages that are sent for it, each with its speaker and its text,
 and where in the payload the texts are that may come back changed.
 */
module Conversations {
  import opened JsonTree
  import opened JsonEdit
  import opened JsonQuery
  import opened JsonValue

  /** A text that may change, and its place in the message: a block of the content, or -1 for all of it. */
  datatype Free = Free(path: Path, block: int)

  datatype Said = Said(message: JValue, free: seq<Free>)

  function FreeUnder(k: nat, fs: seq<Free>): (r: seq<Free>)
    ensures |r| == |fs|
  {
    seq(|fs|, i requires 0 <= i < |fs| => fs[i].(path := [k] + fs[i].path))
  }

  /** The same, seen from one level up. */
  function Under(k: nat, ss: seq<Said>): (r: seq<Said>)
    ensures |r| == |ss|
  {
    seq(|ss|, i requires 0 <= i < |ss| => ss[i].(free := FreeUnder(k, ss[i].free)))
  }

  /** What the items say, one after the other. */
  function Joined(items: seq<seq<Said>>): seq<Said> {
    if items == [] then [] else Joined(items[..|items| - 1]) + Under(|items| - 1, items[|items| - 1])
  }

  function InList(j: Json, key: string, items: seq<seq<Said>>): seq<Said>
    requires Has(j, key)
  {
    Under(Find(j.items, key), Joined(items))
  }

  /* ---------- messages ---------- */

  function Message(role: string, content: JValue): JValue { VObj(map["role" := VStr(role), "content" := content]) }

  function Reply(id: string, content: JValue): JValue {
    VObj(map["role" := VStr("tool"), "tool_call_id" := VStr(id), "content" := content])
  }

  function Call(id: string, name: string, arguments: string): JValue {
    VObj(map["role" := VStr("assistant"), "content" := VStr(""),
             "tool_calls" := VArr([VObj(map["id" := VStr(id), "type" := VStr("function"),
               "function" := VObj(map["name" := VStr(name), "arguments" := VStr(arguments)])])])])
  }

  /** Its texts are sent and never changed. */
  predicate Instructs(role: string) { role == "system" || role == "developer" }

  predicate HasStr(j: Json, key: string) { Has(j, key) && Get(j, key).Str? }
  predicate HasObj(j: Json, key: string) { Has(j, key) && Get(j, key).Obj? }
  predicate HasArr(j: Json, key: string) { Has(j, key) && Get(j, key).Arr? }
  predicate HasList(j: Json, key: string) { HasArr(j, key) && Get(j, key).items != [] }

  /* ---------- text blocks ---------- */

  predicate IsText(b: Json, responses: bool) {
    HasStr(b, "text")
    && if responses then TextAt(b, "type") == "input_text" || TextAt(b, "type") == "output_text"
       else TextAt(b, "type") == "text"
  }

  predicate AllText(list: Json, responses: bool) {
    list.Arr? && forall i | 0 <= i < |list.items| :: IsText(list.items[i].value, responses)
  }

  function TextBlocks(list: Json): JValue
    requires list.Arr?
  {
    VArr(seq(|list.items|, i requires 0 <= i < |list.items| =>
      VObj(map["type" := VStr("text"), "text" := VStr(TextAt(list.items[i].value, "text"))])))
  }

  function FreeBlocks(list: Json): (r: seq<Free>)
    requires list.Arr?
    ensures |r| == |list.items|
  {
    seq(|list.items|, i requires 0 <= i < |list.items| => Free([i, Find(Items(list.items[i].value), "text")], i))
  }

  /* ---------- OpenAI chat: the messages are sent as they are ---------- */

  predicate IsCall(c: Json) {
    && TextAt(c, "type") == "function" && TextAt(c, "id") != "" && HasObj(c, "function")
    && TextAt(Get(c, "function"), "name") != "" && HasStr(Get(c, "function"), "arguments")
  }

  predicate ChatOk(m: Json) {
    var role := TextAt(m, "role");
    && m.Obj?
    && (role == "system" || role == "developer" || role == "user" || role == "assistant" || role == "tool")
    && (role == "tool" ==> TextAt(m, "tool_call_id") != "")
    && (Has(m, "tool_calls") ==>
          role == "assistant" && Get(m, "tool_calls").Arr?
          && forall i | 0 <= i < |Get(m, "tool_calls").items| :: IsCall(Get(m, "tool_calls").items[i].value))
    && (HasStr(m, "content") || (Has(m, "content") && AllText(Get(m, "content"), false))
        || ((!Has(m, "content") || Get(m, "content") == Lit("null")) && Has(m, "tool_calls")))
  }

  function ChatSaid(m: Json): Said {
    Said(Value(m),
         if Instructs(TextAt(m, "role")) || !Has(m, "content") then []
         else FreeUnder(Find(m.items, "content"),
                        if Get(m, "content").Str? then [Free([], -1)]
                        else if Get(m, "content").Arr? then FreeBlocks(Get(m, "content")) else []))
  }

  /* ---------- Responses: messages, or else the outputs of tools alone ---------- */

  predicate IsOutput(item: Json) {
    var kind := TextAt(item, "type");
    kind == "custom_tool_call_output" || kind == "function_call_output" || kind == "local_shell_call_output"
    || kind == "apply_patch_call_output"
  }

  predicate AnyOutput(list: Json) { exists i | 0 <= i < |Items(list)| :: IsOutput(Items(list)[i].value) }

  predicate MessageOk(m: Json) {
    var role := TextAt(m, "role");
    && TextAt(m, "type") == "message"
    && (role == "system" || role == "developer" || role == "user" || role == "assistant")
    && (HasStr(m, "content") || (Has(m, "content") && AllText(Get(m, "content"), true)))
  }

  /** One block counts as its text. */
  function MessageSaid(m: Json): Said
    requires Has(m, "content") && (Get(m, "content").Str? || Get(m, "content").Arr?)
  {
    var role, content, k := TextAt(m, "role"), Get(m, "content"), Find(m.items, "content");
    var free := if content.Str? then [Free([], -1)]
                else if |content.items| == 1 then [Free([0, Find(Items(content.items[0].value), "text")], -1)]
                else FreeBlocks(content);
    Said(Message(role, if content.Str? then VStr(TextOf(content))
                       else if |content.items| == 1 then VStr(TextAt(content.items[0].value, "text"))
                       else TextBlocks(content)),
         if Instructs(role) then [] else FreeUnder(k, free))
  }

  function OutputBlockSaid(b: Json, id: string): seq<Said> {
    if IsText(b, true) then [Said(Reply(id, VStr(TextAt(b, "text"))), [Free([Find(b.items, "text")], -1)])] else []
  }

  function OutputSaid(item: Json): seq<Said> {
    var id := TextAt(item, "call_id");
    if !IsOutput(item) || id == "" || !Has(item, "output") then []
    else
      var output := Get(item, "output");
      if output.Str? then [Said(Reply(id, VStr(TextOf(output))), [Free([Find(item.items, "output")], -1)])]
      else if output.Arr? then
        InList(item, "output", seq(|output.items|, i requires 0 <= i < |output.items| =>
          OutputBlockSaid(output.items[i].value, id)))
      else []
  }

  /* ---------- Claude ---------- */

  predicate ClaudeBlockOk(b: Json, role: string) {
    var kind := TextAt(b, "type");
    || (kind == "text" && HasStr(b, "text"))
    || (kind == "tool_use" && role == "assistant" && TextAt(b, "id") != "" && TextAt(b, "name") != ""
        && Has(b, "input"))
    || (kind == "tool_result" && role == "user" && TextAt(b, "tool_use_id") != ""
        && (HasStr(b, "content") || (Has(b, "content") && AllText(Get(b, "content"), false))))
  }

  function ClaudeBlockSaid(b: Json, role: string, marshal: JValue -> string): seq<Said>
    requires ClaudeBlockOk(b, role)
  {
    var kind := TextAt(b, "type");
    if kind == "text" then [Said(Message(role, VStr(TextAt(b, "text"))), [Free([Find(b.items, "text")], -1)])]
    else if kind == "tool_use" then
      [Said(Call(TextAt(b, "id"), TextAt(b, "name"), marshal(Value(Get(b, "input")))), [])]
    else
      var id, content, k := TextAt(b, "tool_use_id"), Get(b, "content"), Find(b.items, "content");
      if content.Str? then [Said(Reply(id, VStr(TextOf(content))), [Free([k], -1)])]
      else [Said(Reply(id, TextBlocks(content)), FreeUnder(k, FreeBlocks(content)))]
  }

  predicate ClaudeOk(m: Json) {
    var role := TextAt(m, "role");
    && (role == "user" || role == "assistant") && Has(m, "content")
    && (Get(m, "content").Str?
        || (Get(m, "content").Arr?
            && forall i | 0 <= i < |Get(m, "content").items| :: ClaudeBlockOk(Get(m, "content").items[i].value, role)))
  }

  function ClaudeSaid(m: Json, marshal: JValue -> string): seq<Said>
    requires ClaudeOk(m)
  {
    var role, content := TextAt(m, "role"), Get(m, "content");
    if content.Str? then
      [Said(Message(role, VStr(TextOf(content))), [Free([Find(m.items, "content")], -1)])]
    else
      InList(m, "content", seq(|content.items|, i requires 0 <= i < |content.items| =>
        ClaudeBlockSaid(content.items[i].value, role, marshal)))
  }

  /** Of system blocks or parts those with a text are messages; none may change. */
  function SystemSaid(es: seq<Elem>): seq<Said> {
    if es == [] then []
    else
      (if HasStr(es[0].value, "text") then [Said(Message("system", VStr(TextAt(es[0].value, "text"))), [])] else [])
      + SystemSaid(es[1..])
  }

  predicate ClaudeSystemOk(root: Json) {
    Has(root, "system") ==> Get(root, "system").Str? || AllText(Get(root, "system"), false)
  }

  function ClaudeSystemSaid(root: Json): seq<Said>
    requires ClaudeSystemOk(root)
  {
    if !Has(root, "system") then []
    else if Get(root, "system").Str? then [Said(Message("system", VStr(TextAt(root, "system"))), [])]
    else SystemSaid(Get(root, "system").items)
  }

  /* ---------- Gemini ---------- */

  /** The call a function call or response belongs to. */
  function CallId(j: Json): string { if TextAt(j, "id") != "" then TextAt(j, "id") else TextAt(j, "name") }

  predicate IsThought(part: Json) { Has(part, "thought") && Get(part, "thought") == Lit("true") }

  predicate PartOk(part: Json, role: string) {
    part.Obj? &&
    if Has(part, "text") then
      Get(part, "text").Str?
      && (Has(part, "thought") ==> Get(part, "thought") == Lit("true") || Get(part, "thought") == Lit("false"))
    else if Has(part, "functionCall") then
      var call := Get(part, "functionCall");
      role == "model" && call.Obj? && TextAt(call, "name") != "" && Has(call, "args")
    else if Has(part, "functionResponse") then
      var reply := Get(part, "functionResponse");
      role == "user" && CallId(reply) != "" && HasObj(reply, "response") && HasStr(Get(reply, "response"), "result")
    else true
  }

  function PartSaid(part: Json, role: string, marshal: JValue -> string): seq<Said>
    requires PartOk(part, role)
  {
    if Has(part, "text") then
      if IsThought(part) then []
      else [Said(Message(if role == "model" then "assistant" else "user", VStr(TextAt(part, "text"))),
                 [Free([Find(part.items, "text")], -1)])]
    else if Has(part, "functionCall") then
      var call := Get(part, "functionCall");
      [Said(Call(CallId(call), TextAt(call, "name"), marshal(Value(Get(call, "args")))), [])]
    else if Has(part, "functionResponse") then
      var reply := Get(part, "functionResponse");
      var response := Get(reply, "response");
      [Said(Reply(CallId(reply), VStr(TextAt(response, "result"))),
            [Free([Find(part.items, "functionResponse"), Find(reply.items, "response"),
                   Find(response.items, "result")], -1)])]
    else []
  }

  predicate ContentOk(c: Json) {
    var role := TextAt(c, "role");
    && (role == "user" || role == "model") && HasArr(c, "parts")
    && forall i | 0 <= i < |Get(c, "parts").items| :: PartOk(Get(c, "parts").items[i].value, role)
  }

  function ContentSaid(c: Json, marshal: JValue -> string): seq<Said>
    requires ContentOk(c)
  {
    var parts := Get(c, "parts").items;
    InList(c, "parts", seq(|parts|, i requires 0 <= i < |parts| =>
      PartSaid(parts[i].value, TextAt(c, "role"), marshal)))
  }

  function SystemKey(j: Json): string {
    if Has(j, "systemInstruction") then "systemInstruction" else "system_instruction"
  }

  predicate GeminiSystemOk(j: Json) {
    Has(j, SystemKey(j)) ==>
      var system := Get(j, SystemKey(j));
      HasArr(system, "parts")
      && forall i | 0 <= i < |Get(system, "parts").items| :: Get(system, "parts").items[i].value.Obj?
  }

  function GeminiSystemSaid(j: Json): seq<Said>
    requires GeminiSystemOk(j)
  {
    if Has(j, SystemKey(j)) then SystemSaid(Get(Get(j, SystemKey(j)), "parts").items) else []
  }

  predicate GeminiOk(j: Json) {
    && GeminiSystemOk(j) && HasList(j, "contents")
    && forall i | 0 <= i < |Get(j, "contents").items| :: ContentOk(Get(j, "contents").items[i].value)
  }

  function GeminiSaid(j: Json, marshal: JValue -> string): seq<Said>
    requires GeminiOk(j)
  {
    var contents := Get(j, "contents").items;
    GeminiSystemSaid(j)
    + InList(j, "contents", seq(|contents|, i requires 0 <= i < |contents| => ContentSaid(contents[i].value, marshal)))
  }

  /* ---------- payloads ---------- */

  predicate ListOk(root: Json, key: string, item: Json -> bool) {
    HasList(root, key) && forall i | 0 <= i < |Get(root, key).items| :: item(Get(root, key).items[i].value)
  }

  /** The payloads that can be sent. */
  predicate Readable(to: string, root: Json) {
    if to == "openai" then ListOk(root, "messages", ChatOk)
    else if to == "claude" then ClaudeSystemOk(root) && ListOk(root, "messages", ClaudeOk)
    else if to == "gemini" then GeminiOk(root)
    else if to == "antigravity" then HasObj(root, "request") && GeminiOk(Get(root, "request"))
    else HasList(root, "input") && (AnyOutput(Get(root, "input")) || ListOk(root, "input", MessageOk))
  }

  function Conversation(to: string, root: Json, marshal: JValue -> string): seq<Said>
    requires Readable(to, root)
  {
    if to == "openai" then
      var items := Get(root, "messages").items;
      InList(root, "messages", seq(|items|, i requires 0 <= i < |items| => [ChatSaid(items[i].value)]))
    else if to == "claude" then
      var items := Get(root, "messages").items;
      ClaudeSystemSaid(root)
      + InList(root, "messages", seq(|items|, i requires 0 <= i < |items| => ClaudeSaid(items[i].value, marshal)))
    else if to == "gemini" then GeminiSaid(root, marshal)
    else if to == "antigravity" then
      Under(Find(root.items, "request"), GeminiSaid(Get(root, "request"), marshal))
    else
      var items := Get(root, "input").items;
      InList(root, "input",
             if AnyOutput(Get(root, "input"))
             then seq(|items|, i requires 0 <= i < |items| => OutputSaid(items[i].value))
             else seq(|items|, i requires 0 <= i < |items| => [MessageSaid(items[i].value)]))
  }
}
