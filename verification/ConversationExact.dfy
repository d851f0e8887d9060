/** Gemini payloads, whole payloads, and what that says of the messages that are sent. */
module ConversationExact {
  import opened JsonText
  import opened JsonTree
  import opened JsonEdit
  import opened JsonQuery
  import opened JsonValue
  import opened Protocol
  import opened Projection
  import opened Headroom
  import opened Conversations
  import opened ConversationProofs

  /* ---------- Gemini ---------- */

  lemma PartIs(part: Json, role: string, marshal: JValue -> string)
    requires role == "user" || role == "model"
    ensures var step := StepOf(GeminiPiece(role), part, marshal);
            if !part.Obj? then step == Fail
            else if Has(part, "text") then
              if !PartOk(part, role) then step == Fail
              else if IsThought(part) then step == Emit([])
              else step == Into([], "text", Hole(Role(if role == "model" then "assistant" else "user")))
            else if Has(part, "functionCall") then
              var call := Get(part, "functionCall");
              if !PartOk(part, role) then step == Fail
              else step == Emit([ToolCall(CallId(call), TextAt(call, "name"), marshal(Value(Get(call, "args"))))])
            else if Has(part, "functionResponse") then
              if role != "user" || !HasObj(part, "functionResponse") then step == Fail
              else step == Into([], "functionResponse", Down(GeminiReply))
            else step == Emit([])
  {
    LiteralsDiffer();
    hide Find, Decode, ToolCall, Role, Value;
  }

  lemma LiteralsDiffer()
    ensures "user" != "model" && Lit("true") != Lit("false")
  {
    assert |"user"| == 4 && |"model"| == 5 && |"true"| == 4 && |"false"| == 5;
  }

  function PartLine(part: Json, role: string, marshal: JValue -> string): seq<Said> {
    if PartOk(part, role) then PartSaid(part, role, marshal) else []
  }

  lemma PartExact(part: Json, role: string, marshal: JValue -> string)
    requires role == "user" || role == "model"
    ensures Exact(ProjectLevel(GeminiPiece(role), part, marshal), PartOk(part, role), PartLine(part, role, marshal))
  {
    PartIs(part, role, marshal);
    PartKinds(part, role);
    hide StepOf, ProjectLevel, Exact, Find, TextAt, Role, ToolCall, Call, Value, CallId, Has, Get, HasObj, IsThought;
    var n := GeminiPiece(role);
    if StepOf(n, part, marshal).Fail? {
      FailExact(n, part, [], marshal);
    } else if Has(part, "text") {
      if IsThought(part) {
        SilentExact(n, part, marshal);
      } else {
        var speaker := if role == "model" then "assistant" else "user";
        TextExact(n, part, "text", Role(speaker), marshal);
        RoleIs(speaker, VStr(TextAt(part, "text")));
      }
    } else if Has(part, "functionCall") {
      var call := Get(part, "functionCall");
      CallExact(n, part, CallId(call), TextAt(call, "name"), marshal(Value(Get(call, "args"))), marshal);
    } else if Has(part, "functionResponse") {
      ReplyExact(part, role, marshal);
    } else {
      SilentExact(n, part, marshal);
    }
  }

  lemma PartKinds(part: Json, role: string)
    ensures PartOk(part, role) ==> part.Obj?
    ensures part.Obj? && Has(part, "text") && PartOk(part, role) ==> HasStr(part, "text")
    ensures part.Obj? && !Has(part, "text") && !Has(part, "functionCall") && !Has(part, "functionResponse") ==>
              PartOk(part, role)
    ensures part.Obj? && !Has(part, "text") && !Has(part, "functionCall") && Has(part, "functionResponse") ==>
              (PartOk(part, role) ==> role == "user" && HasObj(part, "functionResponse"))
  {
    hide Find, Decode, CallId;
    if !Has(part, "text") && !Has(part, "functionCall") && Has(part, "functionResponse") && PartOk(part, role) {
      ReplyObject(Get(part, "functionResponse"));
    }
  }

  lemma ReplyObject(reply: Json)
    requires Has(reply, "response")
    ensures reply.Obj?
  {
  }

  /** A function response is read through two objects. */
  predicate ReplyOk(reply: Json) {
    CallId(reply) != "" && HasObj(reply, "response") && HasStr(Get(reply, "response"), "result")
  }

  function ReplyLine(reply: Json): seq<Said> {
    if !ReplyOk(reply) then []
    else
      var response := Get(reply, "response");
      [Said(Reply(CallId(reply), VStr(TextAt(response, "result"))),
            [Free([Find(reply.items, "response"), Find(response.items, "result")], -1)])]
  }

  lemma ReplyIs(reply: Json, marshal: JValue -> string)
    ensures StepOf(GeminiReply, reply, marshal)
            == if CallId(reply) == "" || !HasObj(reply, "response") then Fail
               else Into([], "response", Down(GeminiResult(CallId(reply))))
  {
    hide Find, Decode;
  }

  lemma ResultIs(response: Json, id: string, marshal: JValue -> string)
    ensures StepOf(GeminiResult(id), response, marshal)
            == if HasStr(response, "result") then Into([], "result", Hole(ToolReply(id))) else Fail
  {
    hide Find, Decode, ToolReply;
  }

  lemma DownIs(n: Level, v: Json, marshal: JValue -> string)
    ensures ProjectSub(Down(n), v, marshal) == ProjectLevel(n, v, marshal)
  {
    hide ProjectLevel;
  }

  lemma ReplyLevelExact(reply: Json, marshal: JValue -> string)
    ensures Exact(ProjectLevel(GeminiReply, reply, marshal), ReplyOk(reply), ReplyLine(reply))
  {
    ReplyIs(reply, marshal);
    hide StepOf, ProjectLevel, ProjectSub, Exact, Find, TextAt, ToolReply, Reply, CallId, Under;
    if CallId(reply) == "" || !HasObj(reply, "response") {
      FailExact(GeminiReply, reply, [], marshal);
    } else {
      var id, response, k := CallId(reply), Get(reply, "response"), Find(reply.items, "response");
      ResultIs(response, id, marshal);
      DownIs(GeminiResult(id), response, marshal);
      if HasStr(response, "result") {
        TextExact(GeminiResult(id), response, "result", ToolReply(id), marshal);
        ToolMembers(id, VStr(TextAt(response, "result")));
        var s := Said(Reply(id, VStr(TextAt(response, "result"))), [Free([Find(response.items, "result")], -1)]);
        IntoExact(GeminiReply, reply, true, [s], marshal);
        UnderOne(k, s);
        FreeUnderStep(k, [Find(response.items, "result")]);
        assert [k] + [Find(response.items, "result")] == [k, Find(response.items, "result")];
      } else {
        FailExact(GeminiResult(id), response, [], marshal);
        IntoExact(GeminiReply, reply, false, [], marshal);
        UnderNothing(k);
      }
    }
  }

  lemma FreeUnderStep(k: nat, p: Path)
    ensures FreeUnder(k, [Free(p, -1)]) == [Free([k] + p, -1)]
  {
  }

  lemma UnderNothing(k: nat)
    ensures Under(k, []) == []
  {
  }

  lemma ReplyExact(part: Json, role: string, marshal: JValue -> string)
    requires role == "user" && part.Obj? && !Has(part, "text") && !Has(part, "functionCall")
             && HasObj(part, "functionResponse")
    requires StepOf(GeminiPiece(role), part, marshal) == Into([], "functionResponse", Down(GeminiReply))
    ensures Exact(ProjectLevel(GeminiPiece(role), part, marshal), PartOk(part, role), PartLine(part, role, marshal))
  {
    var reply, k := Get(part, "functionResponse"), Find(part.items, "functionResponse");
    ReplyLevelExact(reply, marshal);
    DownIs(GeminiReply, reply, marshal);
    PartLineIs(part, role, marshal);
    hide StepOf, ProjectLevel, ProjectSub, Exact, Find, PartOk, PartLine, ReplyOk, ReplyLine, Under;
    IntoExact(GeminiPiece(role), part, ReplyOk(reply), ReplyLine(reply), marshal);
  }

  lemma PartLineIs(part: Json, role: string, marshal: JValue -> string)
    requires role == "user" && part.Obj? && !Has(part, "text") && !Has(part, "functionCall")
             && HasObj(part, "functionResponse")
    ensures var reply, k := Get(part, "functionResponse"), Find(part.items, "functionResponse");
            && (PartOk(part, role) <==> ReplyOk(reply))
            && PartLine(part, role, marshal) == Under(k, ReplyLine(reply))
  {
    hide Find, TextAt, Reply, CallId;
    var reply, k := Get(part, "functionResponse"), Find(part.items, "functionResponse");
    if ReplyOk(reply) {
      var response := Get(reply, "response");
      var p: Path := [Find(reply.items, "response"), Find(response.items, "result")];
      FreeUnderStep(k, p);
      assert [k] + p == [k, Find(reply.items, "response"), Find(response.items, "result")];
      UnderOne(k, ReplyLine(reply)[0]);
    } else {
      UnderNothing(k);
    }
  }

  lemma ContentIs(c: Json, marshal: JValue -> string)
    ensures var role := TextAt(c, "role");
            StepOf(GeminiItem, c, marshal)
            == if (role != "user" && role != "model") || !HasArr(c, "parts") then Fail
               else Into([], "parts", EachItem(GeminiPiece(role)))
  {
    hide Find, Decode;
  }

  function ContentLines(c: Json, marshal: JValue -> string): seq<Said> {
    if ContentOk(c) then ContentSaid(c, marshal) else []
  }

  lemma ContentExact(c: Json, marshal: JValue -> string)
    ensures Exact(ProjectLevel(GeminiItem, c, marshal), ContentOk(c), ContentLines(c, marshal))
  {
    ContentIs(c, marshal);
    hide StepOf, ProjectLevel, Exact, Find, TextAt, Joined, PartOk, PartSaid, PartLine, InList, Has, Get;
    var role := TextAt(c, "role");
    if (role != "user" && role != "model") || !HasArr(c, "parts") {
      FailExact(GeminiItem, c, [], marshal);
    } else {
      var items := Get(c, "parts").items;
      var ok := seq(|items|, i requires 0 <= i < |items| => PartOk(items[i].value, role));
      var said := seq(|items|, i requires 0 <= i < |items| => PartLine(items[i].value, role, marshal));
      forall i | 0 <= i < |items|
        ensures Exact(ProjectLevel(GeminiPiece(role), items[i].value, marshal), ok[i], said[i])
      {
        PartExact(items[i].value, role, marshal);
      }
      ListExact(GeminiItem, c, "parts", GeminiPiece(role), ok, said, marshal);
      AllIs(ok);
      if ContentOk(c) {
        ContentLinesAre(c, said, marshal);
      } else {
        NotTold(GeminiItem, c, InList(c, "parts", said), marshal);
      }
    }
  }

  lemma ContentLinesAre(c: Json, said: seq<seq<Said>>, marshal: JValue -> string)
    requires ContentOk(c) && |said| == |Get(c, "parts").items|
    requires forall i | 0 <= i < |said| ::
               said[i] == PartLine(Get(c, "parts").items[i].value, TextAt(c, "role"), marshal)
    ensures ContentLines(c, marshal) == InList(c, "parts", said)
  {
    hide Find, TextAt, PartOk, PartSaid, InList;
    var items := Get(c, "parts").items;
    assert said == seq(|items|, i requires 0 <= i < |items| => PartSaid(items[i].value, TextAt(c, "role"), marshal));
  }

  lemma GeminiIs(j: Json, marshal: JValue -> string)
    ensures StepOf(GeminiRoot, j, marshal)
            == if GeminiSystem(j).None? || !HasList(j, "contents") then Fail
               else Into(GeminiSystem(j).value, "contents", EachItem(GeminiItem))
  {
    hide Find, GeminiSystem;
  }

  function GeminiLines(j: Json, marshal: JValue -> string): seq<Said> {
    if Conversations.GeminiOk(j) then GeminiSaid(j, marshal) else []
  }

  lemma GeminiExact(j: Json, marshal: JValue -> string)
    ensures Exact(ProjectLevel(GeminiRoot, j, marshal), Conversations.GeminiOk(j), GeminiLines(j, marshal))
  {
    GeminiIs(j, marshal);
    GeminiSystemExact(j);
    hide StepOf, ProjectLevel, Exact, Tells, Find, Joined, ContentOk, ContentSaid, ContentLines, InList, Has, Get,
         GeminiSystemSaid, GeminiSystemOk, GeminiSystem;
    if GeminiSystem(j).None? || !HasList(j, "contents") {
      FailExact(GeminiRoot, j, [], marshal);
    } else {
      var items := Get(j, "contents").items;
      var ok := seq(|items|, i requires 0 <= i < |items| => ContentOk(items[i].value));
      var said := seq(|items|, i requires 0 <= i < |items| => ContentLines(items[i].value, marshal));
      var first := GeminiSystemSaid(j);
      forall i | 0 <= i < |items| ensures Exact(ProjectLevel(GeminiItem, items[i].value, marshal), ok[i], said[i]) {
        ContentExact(items[i].value, marshal);
      }
      AfterExact(GeminiRoot, j, "contents", GeminiItem, GeminiSystem(j).value, first, ok, said, marshal);
      AllIs(ok);
      if Conversations.GeminiOk(j) {
        GeminiLinesAre(j, said, marshal);
      } else {
        NotTold(GeminiRoot, j, first + InList(j, "contents", said), marshal);
      }
    }
  }

  lemma GeminiLinesAre(j: Json, said: seq<seq<Said>>, marshal: JValue -> string)
    requires Conversations.GeminiOk(j) && |said| == |Get(j, "contents").items|
    requires forall i | 0 <= i < |said| :: said[i] == ContentLines(Get(j, "contents").items[i].value, marshal)
    ensures GeminiLines(j, marshal)
            == GeminiSystemSaid(j) + InList(j, "contents", said)
  {
    hide Find, ContentOk, ContentSaid, InList, GeminiSystemSaid, GeminiSystemOk;
    var items := Get(j, "contents").items;
    assert said == seq(|items|, i requires 0 <= i < |items| => ContentSaid(items[i].value, marshal));
  }

  /* ---------- payloads ---------- */

  function Lines(to: string, root: Json, marshal: JValue -> string): seq<Said> {
    if Readable(to, root) then Conversation(to, root, marshal) else []
  }

  lemma ChatRootExact(root: Json, marshal: JValue -> string)
    ensures var ok := ListOk(root, "messages", ChatOk);
            Exact(ProjectLevel(ChatRoot, root, marshal), ok,
                  if !ok then []
                  else
                    var items := Get(root, "messages").items;
                    InList(root, "messages", seq(|items|, i requires 0 <= i < |items| => [ChatSaid(items[i].value)])))
  {
    ChatRootIs(root, marshal);
    hide StepOf, ProjectLevel, Exact, Find, ChatOk, ChatSaid, InList, Has, Get;
    if !HasList(root, "messages") {
      FailExact(ChatRoot, root, [], marshal);
    } else {
      var items := Get(root, "messages").items;
      var ok := seq(|items|, i requires 0 <= i < |items| => ChatOk(items[i].value));
      var said := seq(|items|, i requires 0 <= i < |items| => [ChatSaid(items[i].value)]);
      forall i | 0 <= i < |items| ensures Exact(ProjectLevel(ChatItem, items[i].value, marshal), ok[i], said[i]) {
        ChatItemExact(items[i].value, marshal);
      }
      ListExact(ChatRoot, root, "messages", ChatItem, ok, said, marshal);
      AllIs(ok);
      if !All(ok) { NotTold(ChatRoot, root, InList(root, "messages", said), marshal); }
    }
  }

  lemma ChatRootIs(root: Json, marshal: JValue -> string)
    ensures StepOf(ChatRoot, root, marshal)
            == if HasList(root, "messages") then Into([], "messages", EachItem(ChatItem)) else Fail
  {
    hide Find;
  }

  lemma ClaudeRootIs(root: Json, marshal: JValue -> string)
    ensures StepOf(ClaudeRoot, root, marshal)
            == if ClaudeSystem(root).None? || !HasList(root, "messages") then Fail
               else Into(ClaudeSystem(root).value, "messages", EachItem(ClaudeItem))
  {
    hide Find, ClaudeSystem;
  }

  lemma ClaudeRootExact(root: Json, marshal: JValue -> string)
    ensures var ok := ClaudeSystemOk(root) && ListOk(root, "messages", ClaudeOk);
            Exact(ProjectLevel(ClaudeRoot, root, marshal), ok,
                  if !ok then []
                  else
                    var items := Get(root, "messages").items;
                    ClaudeSystemSaid(root)
                    + InList(root, "messages",
                             seq(|items|, i requires 0 <= i < |items| => ClaudeSaid(items[i].value, marshal))))
  {
    ClaudeRootIs(root, marshal);
    ClaudeSystemExact(root);
    if HasList(root, "messages") { HasIsObject(root, "messages"); }
    hide StepOf, ProjectLevel, Exact, Tells, Find, ClaudeOk, ClaudeSaid, ClaudeLines, InList, Has, Get, ClaudeSystem,
         ClaudeSystemOk, ClaudeSystemSaid;
    if !HasList(root, "messages") || ClaudeSystem(root).None? {
      FailExact(ClaudeRoot, root, [], marshal);
    } else {
      var items := Get(root, "messages").items;
      var ok := seq(|items|, i requires 0 <= i < |items| => ClaudeOk(items[i].value));
      var said := seq(|items|, i requires 0 <= i < |items| => ClaudeLines(items[i].value, marshal));
      forall i | 0 <= i < |items| ensures Exact(ProjectLevel(ClaudeItem, items[i].value, marshal), ok[i], said[i]) {
        ClaudeItemExact(items[i].value, marshal);
      }
      AfterExact(ClaudeRoot, root, "messages", ClaudeItem, ClaudeSystem(root).value, ClaudeSystemSaid(root), ok, said,
                 marshal);
      AllIs(ok);
      if All(ok) {
        ClaudeLinesAll(items, said, marshal);
      } else {
        NotTold(ClaudeRoot, root, ClaudeSystemSaid(root) + InList(root, "messages", said), marshal);
      }
    }
  }

  lemma ClaudeLinesAll(items: seq<Elem>, said: seq<seq<Said>>, marshal: JValue -> string)
    requires |said| == |items| && forall i | 0 <= i < |items| :: ClaudeOk(items[i].value)
    requires forall i | 0 <= i < |items| :: said[i] == ClaudeLines(items[i].value, marshal)
    ensures said == seq(|items|, i requires 0 <= i < |items| => ClaudeSaid(items[i].value, marshal))
  {
    hide ClaudeOk, ClaudeSaid;
  }

  lemma OutputsAgree(v: Json)
    ensures Conversations.AnyOutput(v) == Projection.AnyOutput(v)
  {
    hide Find, TextAt;
    assert forall item :: IsOutput(item) == OutputType(TextAt(item, "type"));
  }

  lemma ResponsesRootIs(root: Json, marshal: JValue -> string)
    ensures StepOf(ResponsesRoot, root, marshal)
            == if !HasList(root, "input") then Fail
               else Into([], "input",
                         EachItem(if Conversations.AnyOutput(Get(root, "input")) then OutputItem else MessageItem))
  {
    if HasList(root, "input") { OutputsAgree(Get(root, "input")); }
    hide Find, Projection.AnyOutput, Conversations.AnyOutput;
  }

  lemma OutputsExact(root: Json, marshal: JValue -> string)
    requires HasList(root, "input") && Conversations.AnyOutput(Get(root, "input"))
    ensures var items := Get(root, "input").items;
            Exact(ProjectLevel(ResponsesRoot, root, marshal), true,
                  InList(root, "input", seq(|items|, i requires 0 <= i < |items| => OutputSaid(items[i].value))))
  {
    ResponsesRootIs(root, marshal);
    hide StepOf, ProjectLevel, Exact, Find, OutputSaid, InList, Has, Get, Conversations.AnyOutput;
    var items := Get(root, "input").items;
    var said := seq(|items|, i requires 0 <= i < |items| => OutputSaid(items[i].value));
    forall i | 0 <= i < |items|
      ensures Exact(ProjectLevel(OutputItem, items[i].value, marshal), Yes(|items|)[i], said[i])
    {
      OutputItemExact(items[i].value, marshal);
    }
    ListExact(ResponsesRoot, root, "input", OutputItem, Yes(|items|), said, marshal);
  }

  lemma MessagesExact(root: Json, marshal: JValue -> string)
    requires HasList(root, "input") && !Conversations.AnyOutput(Get(root, "input"))
    ensures var ok := ListOk(root, "input", MessageOk);
            Exact(ProjectLevel(ResponsesRoot, root, marshal), ok,
                  if !ok then []
                  else
                    var items := Get(root, "input").items;
                    InList(root, "input", seq(|items|, i requires 0 <= i < |items| => MessageLine(items[i].value))))
  {
    ResponsesRootIs(root, marshal);
    hide StepOf, ProjectLevel, Exact, Find, MessageOk, MessageLine, InList, Has, Get, Conversations.AnyOutput;
    var items := Get(root, "input").items;
    var ok := seq(|items|, i requires 0 <= i < |items| => MessageOk(items[i].value));
    var said := seq(|items|, i requires 0 <= i < |items| => MessageLine(items[i].value));
    forall i | 0 <= i < |items| ensures Exact(ProjectLevel(MessageItem, items[i].value, marshal), ok[i], said[i]) {
      MessageItemExact(items[i].value, marshal);
    }
    ListExact(ResponsesRoot, root, "input", MessageItem, ok, said, marshal);
    AllIs(ok);
    if !All(ok) { NotTold(ResponsesRoot, root, InList(root, "input", said), marshal); }
  }

  lemma MessageLinesAre(items: seq<Elem>)
    requires forall i | 0 <= i < |items| :: MessageOk(items[i].value)
    ensures forall i | 0 <= i < |items| ::
              Has(items[i].value, "content")
              && (Get(items[i].value, "content").Str? || Get(items[i].value, "content").Arr?)
    ensures seq(|items|, i requires 0 <= i < |items| => MessageLine(items[i].value))
            == seq(|items|, i requires 0 <= i < |items| => [MessageSaid(items[i].value)])
  {
    hide Find, TextAt, MessageSaid;
  }

  lemma AntigravityIs(root: Json, marshal: JValue -> string)
    ensures StepOf(AntigravityRoot, root, marshal)
            == if HasObj(root, "request") then Into([], "request", Down(GeminiRoot)) else Fail
  {
    hide Find;
  }

  lemma AntigravityExact(root: Json, marshal: JValue -> string)
    ensures var ok := HasObj(root, "request") && Conversations.GeminiOk(Get(root, "request"));
            Exact(ProjectLevel(AntigravityRoot, root, marshal), ok,
                  if !ok then [] else Under(Find(root.items, "request"), GeminiSaid(Get(root, "request"), marshal)))
  {
    AntigravityIs(root, marshal);
    hide StepOf, ProjectLevel, ProjectSub, Exact, Find, Conversations.GeminiOk, GeminiSaid, Under, Has, Get;
    if !HasObj(root, "request") {
      FailExact(AntigravityRoot, root, [], marshal);
    } else {
      HasIsObject(root, "request");
      var g := Get(root, "request");
      GeminiExact(g, marshal);
      DownIs(GeminiRoot, g, marshal);
      IntoExact(AntigravityRoot, root, Conversations.GeminiOk(g), GeminiLines(g, marshal), marshal);
      if !Conversations.GeminiOk(g) { UnderNothing(Find(root.items, "request")); }
    }
  }

  lemma ResponsesExact(root: Json, marshal: JValue -> string)
    ensures var ok := HasList(root, "input")
                      && (Conversations.AnyOutput(Get(root, "input")) || ListOk(root, "input", MessageOk));
            Exact(ProjectLevel(ResponsesRoot, root, marshal), ok,
                  if !ok then []
                  else
                    var items := Get(root, "input").items;
                    InList(root, "input",
                           if Conversations.AnyOutput(Get(root, "input"))
                           then seq(|items|, i requires 0 <= i < |items| => OutputSaid(items[i].value))
                           else seq(|items|, i requires 0 <= i < |items| => MessageLine(items[i].value))))
  {
    ResponsesRootIs(root, marshal);
    hide StepOf, ProjectLevel, Exact, Find, MessageOk, MessageLine, OutputSaid, InList, Has, Get,
         Conversations.AnyOutput;
    if !HasList(root, "input") {
      FailExact(ResponsesRoot, root, [], marshal);
    } else if Conversations.AnyOutput(Get(root, "input")) {
      OutputsExact(root, marshal);
    } else {
      MessagesExact(root, marshal);
    }
  }

  /* ---------- the messages and the places of their texts ---------- */

  function Messages(said: seq<Said>): (ms: seq<JValue>)
    ensures |ms| == |said|
  {
    seq(|said|, i requires 0 <= i < |said| => said[i].message)
  }

  /** Where the texts are that may change: in the payload, and in which message; m: the number of the first. */
  function Places(said: seq<Said>, m: nat): seq<(Path, Target)> {
    if said == [] then []
    else PlacesOf(said[0], m) + Places(said[1..], m + 1)
  }

  function PlacesOf(s: Said, m: nat): (r: seq<(Path, Target)>)
    ensures |r| == |s.free|
  {
    seq(|s.free|, i requires 0 <= i < |s.free| => (s.free[i].path, Target(m, s.free[i].block)))
  }

  /** The slots of a projection and where their holes are. */
  function Slotted(p: Projected): seq<(Path, Target)>
    requires |p.slots| == TotalHoles(p.templates)
  {
    seq(|p.slots|, i requires 0 <= i < |p.slots| => (p.slots[i].path, Targets(p.templates, 0)[i]))
  }

  lemma {:induction false} TellsMessages(ts: seq<Template>, slots: seq<TextSlot>, said: seq<Said>)
    requires Tells(ts, slots, said)
    ensures |slots| == TotalHoles(ts) && FillAll(ts, Texts(slots)) == Messages(said)
    decreases |ts|
  {
    hide ConversationProofs.One, Fill, Headroom.Holes, Tells, Texts;
    TellsHead(ts, slots, said);
    if ts != [] {
      var h := Headroom.Holes(ts[0]);
      TellsMessages(ts[1..], slots[h..], said[1..]);
      OneAll(ts[0], slots[..h], said[0], 0);
      TextsParts(slots, h);
      assert Messages(said) == [said[0].message] + Messages(said[1..]);
    } else {
      assert Messages(said) == [];
    }
  }

  lemma TextsParts(slots: seq<TextSlot>, h: nat)
    requires h <= |slots|
    ensures Texts(slots)[..h] == Texts(slots[..h]) && Texts(slots)[h..] == Texts(slots[h..])
  {
  }

  lemma {:induction false} TellsPlaces(ts: seq<Template>, slots: seq<TextSlot>, said: seq<Said>, m: nat)
    requires Tells(ts, slots, said)
    ensures |slots| == TotalHoles(ts) == |Places(said, m)|
    ensures forall k | 0 <= k < |slots| :: Places(said, m)[k] == (slots[k].path, Targets(ts, m)[k])
    decreases |ts|
  {
    hide ConversationProofs.One, Headroom.Holes, TargetsOf, Tells, PlacesOf;
    TellsHead(ts, slots, said);
    if ts != [] {
      var h := Headroom.Holes(ts[0]);
      TellsPlaces(ts[1..], slots[h..], said[1..], m + 1);
      OneAll(ts[0], slots[..h], said[0], m);
      forall k | 0 <= k < |slots| ensures Places(said, m)[k] == (slots[k].path, Targets(ts, m)[k]) {
        if k < h { assert slots[k] == slots[..h][k]; } else { assert slots[k] == slots[h..][k - h]; }
      }
    }
  }

  lemma OneAll(t: Template, slots: seq<TextSlot>, s: Said, m: nat)
    requires ConversationProofs.One(t, slots, s)
    ensures |slots| == Headroom.Holes(t) == |s.free| && Fill(t, Texts(slots)) == s.message
    ensures forall k | 0 <= k < |slots| :: PlacesOf(s, m)[k] == (slots[k].path, TargetsOf(t, m)[k])
  {
    hide Fill, Texts;
  }

  lemma LevelIs(to: string, root: Json, marshal: JValue -> string)
    ensures Exact(ProjectLevel(RootLevel(to), root, marshal), Readable(to, root), Lines(to, root, marshal))
  {
    hide ProjectLevel, Exact, ChatOk, ClaudeOk, MessageOk, ClaudeSystemOk, Conversations.GeminiOk,
         Conversations.AnyOutput,
         ChatSaid, ClaudeSaid, MessageSaid, OutputSaid, GeminiSaid, ClaudeSystemSaid, InList, Under, Has, Get,
         MessageLine;
    if to == "openai" { ChatRootExact(root, marshal); }
    else if to == "claude" { ClaudeRootExact(root, marshal); }
    else if to == "gemini" { GeminiExact(root, marshal); }
    else if to == "antigravity" { AntigravityExact(root, marshal); }
    else {
      ResponsesExact(root, marshal);
      if Readable(to, root) && !Conversations.AnyOutput(Get(root, "input")) {
        MessageLinesAre(Get(root, "input").items);
      }
    }
  }

  /**
   A payload is projected if and only if it is readable and repeats no name; then the messages that
   are sent are its conversation, message by message, and the texts that may come back changed are
   those of that conversation, in order, each known by its place in the payload and in the messages.
   */
  lemma ProjectExact(to: string, root: Json, marshal: JValue -> string)
    ensures Project(to, root, marshal).Some? <==> UniqueNames(root) && Readable(to, root)
    ensures Project(to, root, marshal).Some? ==>
              var p, said := Project(to, root, marshal).value, Conversation(to, root, marshal);
              && |p.slots| == TotalHoles(p.templates)
              && FillAll(p.templates, Texts(p.slots)) == Messages(said)
              && Slotted(p) == Places(said, 0)
  {
    hide ProjectLevel, UniqueNames, Readable, Conversation, Tells, FillAll, TotalHoles, Targets, Places, Texts;
    LevelIs(to, root, marshal);
    if Project(to, root, marshal).Some? {
      var p := Project(to, root, marshal).value;
      TellsMessages(p.templates, p.slots, Conversation(to, root, marshal));
      TellsPlaces(p.templates, p.slots, Conversation(to, root, marshal), 0);
    }
  }
}
