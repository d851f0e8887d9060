/** Who speaks: the role of every sent message that may change, read off the payload on the text's path. */
module Speakers {
  import opened JsonTree
  import opened JsonEdit
  import opened JsonGrow
  import opened JsonQuery
  import opened JsonValue
  import opened Conversations

  /** The message has this role, and as a tool's reply this call's id. */
  predicate Spoken(message: JValue, role: string, call: string) {
    && message.VObj? && "role" in message.fields && message.fields["role"] == VStr(role)
    && (role == "tool" ==> "tool_call_id" in message.fields && message.fields["tool_call_id"] == VStr(call))
  }

  /** In Gemini's format: the role of the content, or the call that the part answers. */
  predicate GeminiSpeaker(root: Json, message: JValue, p: Path) {
    |p| > 4 && HasPath(root, p[..2]) && HasPath(root, p[..4]) &&
    var role, part := TextAt(At(root, p[..2]), "role"), At(root, p[..4]);
    if Has(part, "text") then Spoken(message, if role == "model" then "assistant" else "user", "")
    else Has(part, "functionResponse") && Spoken(message, "tool", CallId(Get(part, "functionResponse")))
  }

  /** Who sends the text at p of the payload. */
  predicate Speaker(to: string, root: Json, message: JValue, p: Path) {
    if to == "antigravity" then
      HasObj(root, "request") && p != [] && p[0] == Find(root.items, "request")
      && GeminiSpeaker(Get(root, "request"), message, p[1..])
    else if to == "gemini" then GeminiSpeaker(root, message, p)
    else
      |p| > 2 && HasPath(root, p[..2]) &&
      var item := At(root, p[..2]);
      if to == "openai" then message == Value(item)
      else if to == "claude" then
        if |p| > 4 && HasPath(root, p[..4]) && TextAt(At(root, p[..4]), "type") == "tool_result"
        then Spoken(message, "tool", TextAt(At(root, p[..4]), "tool_use_id"))
        else Spoken(message, TextAt(item, "role"), "")
      else if Has(root, "input") && AnyOutput(Get(root, "input")) then Spoken(message, "tool", TextAt(item, "call_id"))
      else Spoken(message, TextAt(item, "role"), "")
  }

  lemma {:induction false} JoinedFrom(items: seq<seq<Said>>, s: Said) returns (i: nat, t: Said)
    requires s in Joined(items)
    ensures i < |items| && t in items[i] && s == t.(free := FreeUnder(i, t.free))
  {
    var n := |items| - 1;
    if s in Joined(items[..n]) {
      i, t := JoinedFrom(items[..n], s);
    } else {
      i := n;
      var k :| 0 <= k < |items[n]| && Under(n, items[n])[k] == s;
      t := items[n][k];
    }
  }

  lemma UnderFrom(k: nat, ss: seq<Said>, s: Said) returns (t: Said)
    requires s in Under(k, ss)
    ensures t in ss && s == t.(free := FreeUnder(k, t.free))
  {
    var i :| 0 <= i < |ss| && Under(k, ss)[i] == s;
    t := ss[i];
  }

  /** What is said in a list is said by one of its items, and the path of its texts leads there. */
  lemma ListFrom(j: Json, key: string, items: seq<seq<Said>>, s: Said, n: nat) returns (i: nat, t: Said)
    requires HasArr(j, key) && |items| == |Get(j, key).items| && s in InList(j, key, items) && n < |s.free|
    ensures i < |items| && t in items[i] && t.message == s.message && |t.free| == |s.free|
    ensures var p := s.free[n].path;
            && |p| == 2 + |t.free[n].path| && p[2..] == t.free[n].path
            && HasPath(j, p[..2]) && At(j, p[..2]) == Get(j, key).items[i].value
            && p[0] == Find(j.items, key) && p[1] == i
  {
    hide Joined, Under, Find;
    HasObject(j, key);
    var k := Find(j.items, key);
    var u := UnderFrom(k, Joined(items), s);
    i, t := JoinedFrom(items, u);
    TwoDown(j, key, i, t.free[n].path);
  }

  lemma HasObject(j: Json, key: string)
    requires Has(j, key)
    ensures j.Obj?
  {
  }

  lemma TwoDown(j: Json, key: string, i: nat, q: Path)
    requires HasArr(j, key) && i < |Get(j, key).items|
    ensures j.Obj?
    ensures var p := [Find(j.items, key)] + ([i] + q);
            && |p| == 2 + |q| && p[2..] == q
            && HasPath(j, p[..2]) && At(j, p[..2]) == Get(j, key).items[i].value
            && p[0] == Find(j.items, key) && p[1] == i
  {
    hide Find;
    var k, list := Find(j.items, key), Get(j, key);
    var p := [k] + ([i] + q);
    assert p[..2] == [k, i] && [k, i][1..] == [i] && [i][1..] == [];
    assert HasPath(list, [i]) && At(list, [i]) == list.items[i].value;
  }

  lemma Deeper(j: Json, p: Path, v: Json)
    requires |p| >= 4 && HasPath(j, p[..2]) && At(j, p[..2]) == v && HasPath(v, p[2..][..2])
    ensures HasPath(j, p[..4]) && At(j, p[..4]) == At(v, p[2..][..2])
  {
    PutBelow(j, p[..2], p[2..][..2], v);
    assert p[..2] + p[2..][..2] == p[..4];
  }

  /* ---------- by provider ---------- */

  lemma ChatSpeaker(root: Json, marshal: JValue -> string, s: Said, n: nat)
    requires Readable("openai", root) && s in Conversation("openai", root, marshal) && n < |s.free|
    ensures Speaker("openai", root, s.message, s.free[n].path)
  {
    hide ChatOk, ChatSaid, Has, Get, InList, HasPath, At, Value;
    var items := Get(root, "messages").items;
    var i, t := ListFrom(root, "messages", seq(|items|, i requires 0 <= i < |items| => [ChatSaid(items[i].value)]), s,
                         n);
    ChatFree(items[i].value, n);
  }

  lemma ChatFree(m: Json, n: nat)
    requires n < |ChatSaid(m).free|
    ensures ChatSaid(m).message == Value(m) && |ChatSaid(m).free[n].path| > 0
  {
    hide Value, Find, TextAt;
  }

  lemma ClaudeSystemFree(root: Json, s: Said)
    requires ClaudeSystemOk(root) && s in ClaudeSystemSaid(root)
    ensures s.free == []
  {
    hide SystemSaid, Find, TextAt, IsText;
    if Has(root, "system") && !Get(root, "system").Str? { SystemFree(Get(root, "system").items, s); }
  }

  lemma {:induction false} SystemFree(es: seq<Elem>, s: Said)
    requires s in SystemSaid(es)
    ensures s.free == []
  {
    hide Find, TextAt;
    if s in SystemSaid(es[1..]) { SystemFree(es[1..], s); }
  }

  lemma ClaudeSpeaker(root: Json, marshal: JValue -> string, s: Said, n: nat)
    requires Readable("claude", root) && s in Conversation("claude", root, marshal) && n < |s.free|
    ensures Speaker("claude", root, s.message, s.free[n].path)
  {
    hide ClaudeOk, ClaudeSaid, Has, Get, InList, HasPath, At, ClaudeSystemOk, ClaudeSystemSaid, Spoken, TextAt;
    if s in ClaudeSystemSaid(root) { ClaudeSystemFree(root, s); }
    var items := Get(root, "messages").items;
    var i, t := ListFrom(root, "messages",
                         seq(|items|, i requires 0 <= i < |items| => ClaudeSaid(items[i].value, marshal)), s, n);
    var m, p := items[i].value, s.free[n].path;
    ClaudeItemSpeaker(m, marshal, t, n);
    if |p| > 4 && HasPath(m, p[2..][..2]) { Deeper(root, p, m); }
    if |p| > 4 && !HasPath(m, p[2..][..2]) { assert false by { ClaudeItemDeep(m, marshal, t, n); } }
  }

  /** Within one message. */
  predicate ItemSpeaker(m: Json, message: JValue, p: Path) {
    p != [] &&
    if |p| > 2 && HasPath(m, p[..2]) && TextAt(At(m, p[..2]), "type") == "tool_result"
    then Spoken(message, "tool", TextAt(At(m, p[..2]), "tool_use_id"))
    else Spoken(message, TextAt(m, "role"), "")
  }

  lemma ClaudeItemDeep(m: Json, marshal: JValue -> string, t: Said, n: nat)
    requires ClaudeOk(m) && t in ClaudeSaid(m, marshal) && n < |t.free| && |t.free[n].path| > 2
    ensures HasPath(m, t.free[n].path[..2])
  {
    hide Find, TextAt, ClaudeBlockOk, ClaudeBlockSaid, InList, HasPath;
    var content := Get(m, "content");
    if content.Str? {
    } else {
      var i, u := ListFrom(m, "content", seq(|content.items|, i requires 0 <= i < |content.items| =>
        ClaudeBlockSaid(content.items[i].value, TextAt(m, "role"), marshal)), t, n);
    }
  }

  lemma ClaudeItemSpeaker(m: Json, marshal: JValue -> string, t: Said, n: nat)
    requires ClaudeOk(m) && t in ClaudeSaid(m, marshal) && n < |t.free|
    ensures ItemSpeaker(m, t.message, t.free[n].path)
  {
    hide Find, TextAt, ClaudeBlockOk, ClaudeBlockSaid, InList, HasPath, At, Spoken;
    var content, role := Get(m, "content"), TextAt(m, "role");
    if content.Str? {
      PlainSpoken(role, VStr(TextOf(content)));
    } else {
      var i, u := ListFrom(m, "content", seq(|content.items|, i requires 0 <= i < |content.items| =>
        ClaudeBlockSaid(content.items[i].value, role, marshal)), t, n);
      BlockSpeaker(content.items[i].value, role, marshal, u, n);
    }
  }

  lemma PlainSpoken(role: string, content: JValue)
    requires role == "user" || role == "assistant" || role == "system" || role == "developer"
    ensures Spoken(Message(role, content), role, "")
  {
    assert |"tool"| == 4 && role != "tool" by { RolesDiffer(); }
  }

  lemma RolesDiffer()
    ensures "user" != "tool" && "assistant" != "tool" && "system" != "tool" && "developer" != "tool"
  {
    assert "user"[0] != "tool"[0] && "assistant"[0] != "tool"[0] && "system"[0] != "tool"[0]
           && "developer"[0] != "tool"[0];
  }

  lemma ReplySpoken(id: string, content: JValue)
    ensures Spoken(Reply(id, content), "tool", id)
  {
  }

  lemma BlockSpeaker(b: Json, role: string, marshal: JValue -> string, u: Said, n: nat)
    requires (role == "user" || role == "assistant") && ClaudeBlockOk(b, role)
    requires u in ClaudeBlockSaid(b, role, marshal) && n < |u.free|
    ensures |u.free[n].path| > 0
    ensures if TextAt(b, "type") == "tool_result" then Spoken(u.message, "tool", TextAt(b, "tool_use_id"))
            else Spoken(u.message, role, "")
  {
    assert |"text"| == 4 && |"tool_use"| == 8 && |"tool_result"| == 11;
    PlainSpoken(role, VStr(TextAt(b, "text")));
    hide Find, TextAt, TextBlocks, AllText, Value, Spoken, Message, Call;
    if TextAt(b, "type") == "tool_result" {
      var id, content := TextAt(b, "tool_use_id"), Get(b, "content");
      ReplySpoken(id, VStr(TextOf(content)));
      if content.Arr? { ReplySpoken(id, TextBlocks(content)); }
      hide Reply;
    }
  }

  lemma OutputSpeaker(item: Json, u: Said, n: nat)
    requires u in OutputSaid(item) && n < |u.free|
    ensures |u.free[n].path| > 0 && Spoken(u.message, "tool", TextAt(item, "call_id"))
  {
    hide Find, TextAt, IsOutput, OutputBlockSaid, InList, Spoken, Reply;
    var id, output := TextAt(item, "call_id"), Get(item, "output");
    if output.Str? {
      ReplySpoken(id, VStr(TextOf(output)));
    } else {
      var i, t := ListFrom(item, "output", seq(|output.items|, i requires 0 <= i < |output.items| =>
        OutputBlockSaid(output.items[i].value, id)), u, n);
      OutputBlockSpeaker(output.items[i].value, id, t);
    }
  }

  lemma OutputBlockSpeaker(b: Json, id: string, t: Said)
    requires t in OutputBlockSaid(b, id)
    ensures Spoken(t.message, "tool", id)
  {
    hide Find, TextAt, IsText, Spoken, Reply;
    ReplySpoken(id, VStr(TextAt(b, "text")));
  }

  lemma MessageSpeaker(m: Json, n: nat)
    requires MessageOk(m) && Has(m, "content") && (Get(m, "content").Str? || Get(m, "content").Arr?)
    requires n < |MessageSaid(m).free|
    ensures |MessageSaid(m).free[n].path| > 0 && Spoken(MessageSaid(m).message, TextAt(m, "role"), "")
  {
    hide Find, TextAt, TextBlocks, AllText, Spoken, Message;
    var content := Get(m, "content");
    PlainSpoken(TextAt(m, "role"), if content.Str? then VStr(TextOf(content))
                                   else if |content.items| == 1 then VStr(TextAt(content.items[0].value, "text"))
                                   else TextBlocks(content));
  }

  lemma ResponsesSpeaker(to: string, root: Json, marshal: JValue -> string, s: Said, n: nat)
    requires to != "openai" && to != "claude" && to != "gemini" && to != "antigravity"
    requires Readable(to, root) && s in Conversation(to, root, marshal) && n < |s.free|
    ensures Speaker(to, root, s.message, s.free[n].path)
  {
    hide MessageOk, MessageSaid, OutputSaid, Has, Get, InList, HasPath, At, Spoken, TextAt, AnyOutput;
    var items := Get(root, "input").items;
    if AnyOutput(Get(root, "input")) {
      var i, t := ListFrom(root, "input", seq(|items|, i requires 0 <= i < |items| => OutputSaid(items[i].value)), s,
                           n);
      OutputSpeaker(items[i].value, t, n);
    } else {
      MessagesHave(items);
      var i, t := ListFrom(root, "input", seq(|items|, i requires 0 <= i < |items| => [MessageSaid(items[i].value)]),
                           s, n);
      MessageSpeaker(items[i].value, n);
    }
  }

  lemma MessagesHave(items: seq<Elem>)
    requires forall i | 0 <= i < |items| :: MessageOk(items[i].value)
    ensures forall i | 0 <= i < |items| ::
              Has(items[i].value, "content")
              && (Get(items[i].value, "content").Str? || Get(items[i].value, "content").Arr?)
  {
    hide Find, TextAt;
  }

  lemma PartSpeaker(part: Json, role: string, marshal: JValue -> string, u: Said, n: nat)
    requires (role == "user" || role == "model") && PartOk(part, role)
    requires u in PartSaid(part, role, marshal) && n < |u.free|
    ensures |u.free[n].path| > 0
    ensures if Has(part, "text") then Spoken(u.message, if role == "model" then "assistant" else "user", "")
            else Has(part, "functionResponse")
                 && Spoken(u.message, "tool", CallId(Get(part, "functionResponse")))
  {
    hide Find, TextAt, Value, Spoken, Message, Call, CallId, Reply;
    if Has(part, "text") {
      PlainSpoken(if role == "model" then "assistant" else "user", VStr(TextAt(part, "text")));
    } else if !Has(part, "functionCall") && Has(part, "functionResponse") {
      var reply := Get(part, "functionResponse");
      ReplySpoken(CallId(reply), VStr(TextAt(Get(reply, "response"), "result")));
    }
  }

  lemma GeminiSystemFree(j: Json, s: Said)
    requires GeminiSystemOk(j) && s in GeminiSystemSaid(j)
    ensures s.free == []
  {
    hide SystemSaid, Find;
    SystemFree(Get(Get(j, SystemKey(j)), "parts").items, s);
  }

  lemma GeminiSpeaks(j: Json, marshal: JValue -> string, s: Said, n: nat)
    requires GeminiOk(j) && s in GeminiSaid(j, marshal) && n < |s.free|
    ensures GeminiSpeaker(j, s.message, s.free[n].path)
  {
    hide ContentOk, ContentSaid, Has, Get, InList, HasPath, At, GeminiSystemOk, GeminiSystemSaid, Spoken, TextAt,
         PartOk,
         PartSaid, CallId;
    if s in GeminiSystemSaid(j) { GeminiSystemFree(j, s); }
    var items := Get(j, "contents").items;
    var i, t := ListFrom(j, "contents",
                         seq(|items|, i requires 0 <= i < |items| => ContentSaid(items[i].value, marshal)), s, n);
    var c, p := items[i].value, s.free[n].path;
    var k, u := ContentFrom(c, marshal, t, n);
    Deeper(j, p, c);
  }

  lemma ContentFrom(c: Json, marshal: JValue -> string, t: Said, n: nat) returns (k: nat, u: Said)
    requires ContentOk(c) && t in ContentSaid(c, marshal) && n < |t.free|
    ensures var q := t.free[n].path;
            && |q| > 2 && HasPath(c, q[..2]) && (TextAt(c, "role") == "user" || TextAt(c, "role") == "model")
            && var part := At(c, q[..2]);
               if Has(part, "text") then
                 Spoken(t.message, if TextAt(c, "role") == "model" then "assistant" else "user", "")
               else Has(part, "functionResponse")
                    && Spoken(t.message, "tool", CallId(Get(part, "functionResponse")))
  {
    hide Has, Get, InList, HasPath, At, Spoken, TextAt, PartOk, PartSaid, CallId;
    var parts, role := Get(c, "parts").items, TextAt(c, "role");
    k, u := ListFrom(c, "parts", seq(|parts|, i requires 0 <= i < |parts| =>
      PartSaid(parts[i].value, role, marshal)), t, n);
    PartSpeaker(parts[k].value, role, marshal, u, n);
  }

  lemma AntigravitySpeaker(root: Json, marshal: JValue -> string, s: Said, n: nat)
    requires Readable("antigravity", root) && s in Conversation("antigravity", root, marshal) && n < |s.free|
    ensures Speaker("antigravity", root, s.message, s.free[n].path)
  {
    hide Has, Get, GeminiOk, GeminiSaid, GeminiSpeaker, Find, Under;
    HasObjectAt(root);
    var k := Find(root.items, "request");
    var t := UnderFrom(k, GeminiSaid(Get(root, "request"), marshal), s);
    GeminiSpeaks(Get(root, "request"), marshal, t, n);
    assert ([k] + t.free[n].path)[1..] == t.free[n].path;
  }

  lemma HasObjectAt(root: Json)
    requires HasObj(root, "request")
    ensures root.Obj?
  {
  }

  /**
   Every text that may change is sent with the speaker of its own place: by the role of the message
   or content on its path, or as the tool's reply to the call named there.
   */
  lemma SpeakersOnPaths(to: string, root: Json, marshal: JValue -> string, s: Said, n: nat)
    requires Readable(to, root) && s in Conversation(to, root, marshal) && n < |s.free|
    ensures Speaker(to, root, s.message, s.free[n].path)
  {
    hide Readable, Conversation, Speaker;
    if to == "openai" { ChatSpeaker(root, marshal, s, n); }
    else if to == "claude" { ClaudeSpeaker(root, marshal, s, n); }
    else if to == "gemini" { GeminiRootSpeaker(root, marshal, s, n); }
    else if to == "antigravity" { AntigravitySpeaker(root, marshal, s, n); }
    else { ResponsesSpeaker(to, root, marshal, s, n); }
  }

  lemma GeminiRootSpeaker(root: Json, marshal: JValue -> string, s: Said, n: nat)
    requires Readable("gemini", root) && s in Conversation("gemini", root, marshal) && n < |s.free|
    ensures Speaker("gemini", root, s.message, s.free[n].path)
  {
    hide GeminiOk, GeminiSaid, GeminiSpeaker;
    GeminiSpeaks(root, marshal, s, n);
  }
}
