/** Which strings of a payload are its instruction texts, and in which order they are listed. */
module PromptPlaces {
  import opened JsonText
  import opened JsonTree
  import opened JsonEdit
  import opened JsonQuery
  import opened JsonSlots
  import opened Protocol
  import opened PromptSites
  import opened PromptSitesProofs

  /** The text of an object in a list; kind: the type it must have, if any. */
  predicate BlockText(list: Json, p: Path, kind: string) {
    list.Arr? && |p| == 2 && p[0] < |list.items| &&
    var b := list.items[p[0]].value;
    b.Obj? && (kind == "" || TextAt(b, "type") == kind) && Has(b, "text") && Get(b, "text").Str?
    && p[1] == Find(b.items, "text")
  }

  /** The content of a system or developer message, or a text block in it. */
  predicate MessageText(list: Json, p: Path, kind: string) {
    list.Arr? && |p| >= 2 && p[0] < |list.items| &&
    var m := list.items[p[0]].value;
    m.Obj? && (TextAt(m, "role") == "system" || TextAt(m, "role") == "developer")
    && Has(m, "content") && p[1] == Find(m.items, "content")
    && ((|p| == 2 && Get(m, "content").Str?) || BlockText(Get(m, "content"), p[2..], kind))
  }

  /** p goes on into a member of this name. */
  predicate Into(j: Json, key: string, p: Path) { p != [] && Has(j, key) && p[0] == Find(j.items, key) }

  /** The text of a part of the system instruction of a Gemini request. */
  predicate SystemPart(j: Json, key: string, p: Path) {
    Into(j, key, p) && Get(j, key).Obj? && Into(Get(j, key), "parts", p[1..])
    && BlockText(Get(Get(j, key), "parts"), p[2..], "")
  }

  /** The first of several request members that has a system instruction is the one that counts. */
  predicate InstructionText(to: Target, j: Json, p: Path) {
    match to
    case ChatTarget => Into(j, "messages", p) && MessageText(Get(j, "messages"), p[1..], "text")
    case ResponsesTarget =>
      (Into(j, "instructions", p) && |p| == 1 && Get(j, "instructions").Str?)
      || (Into(j, "input", p) && MessageText(Get(j, "input"), p[1..], "input_text"))
    case ClaudeTarget =>
      Into(j, "system", p)
      && ((|p| == 1 && Get(j, "system").Str?) || BlockText(Get(j, "system"), p[1..], "text"))
    case GeminiTarget =>
      SystemPart(j, if Has(j, "systemInstruction") then "systemInstruction" else "system_instruction", p)
    case AntigravityTarget =>
      var key := if Held(j, "systemInstruction") then "systemInstruction" else "system_instruction";
      Held(j, key) && p != [] && p[0] == HolderAt(j, key) && SystemPart(Holder(j, key), key, p[1..])
  }

  ghost predicate FoundAt(ss: seq<Protocol.Slot>, p: Path) { exists k :: 0 <= k < |ss| && ss[k].path == p }

  lemma LiftFound(k: nat, ss: seq<Protocol.Slot>, p: Path)
    ensures FoundAt(Lift(k, ss), p) <==> p != [] && p[0] == k && FoundAt(ss, p[1..])
  {
    if p != [] && p[0] == k && FoundAt(ss, p[1..]) {
      var i :| 0 <= i < |ss| && ss[i].path == p[1..];
      assert Lift(k, ss)[i].path == [k] + p[1..] == p;
    }
    if FoundAt(Lift(k, ss), p) {
      var i :| 0 <= i < |ss| && Lift(k, ss)[i].path == p;
      assert p == [k] + ss[i].path && p[1..] == ss[i].path;
    }
  }

  lemma JoinFound(a: seq<Protocol.Slot>, b: seq<Protocol.Slot>, p: Path)
    ensures FoundAt(a + b, p) <==> FoundAt(a, p) || FoundAt(b, p)
  {
    if FoundAt(b, p) {
      var i :| 0 <= i < |b| && b[i].path == p;
      assert (a + b)[|a| + i].path == p;
    }
    if FoundAt(a, p) {
      var i :| 0 <= i < |a| && a[i].path == p;
      assert (a + b)[i].path == p;
    }
  }

  lemma {:induction false} EachFound(n: Node, es: seq<Elem>, c: nat, p: Path)
    requires c <= |es|
    ensures FoundAt(EachSlots(n, es, c), p)
            <==> p != [] && p[0] < c && FoundAt(Slots(One(n), es[p[0]].value), p[1..])
  {
    hide Slots, FoundAt, Lift;
    if c == 0 {
      NoneFound(p);
    } else {
      EachFound(n, es, c - 1, p);
      LiftFound(c - 1, Slots(One(n), es[c - 1].value), p);
      JoinFound(EachSlots(n, es, c - 1), Lift(c - 1, Slots(One(n), es[c - 1].value)), p);
    }
  }

  lemma NoneFound(p: Path)
    ensures !FoundAt([], p)
  {
  }

  lemma OneFound(s: Protocol.Slot, p: Path)
    ensures FoundAt([s], p) <==> p == s.path
  {
    if p == s.path { assert [s][0].path == p; }
  }

  lemma TextFound(v: Json, p: Path)
    ensures FoundAt(Slots(Text(PROMPT), v), p) <==> v.Str? && p == []
  {
    hide FoundAt, Decode;
    NoneFound(p);
    if v.Str? { OneFound(Slot([], Decode(v.raw), PROMPT), p); }
  }

  lemma BlockFound(kind: string, b: Json, p: Path)
    ensures FoundAt(Slots(One(TextBlock(kind)), b), p)
            <==> b.Obj? && (kind == "" || TextAt(b, "type") == kind) && Has(b, "text") && Get(b, "text").Str?
                 && p == [Find(b.items, "text")]
  {
    hide FoundAt, Find, TextAt, Lift;
    NoneFound(p);
    if Choose(TextBlock(kind), b).Some? && Has(b, "text") {
      LiftFound(Find(b.items, "text"), Slots(Text(PROMPT), Get(b, "text")), p);
      if p != [] { TextFound(Get(b, "text"), p[1..]); }
      assert p == [Find(b.items, "text")] <==> p != [] && p[0] == Find(b.items, "text") && p[1..] == [];
    }
  }

  lemma BlocksFound(kind: string, list: Json, p: Path)
    ensures FoundAt(Slots(EachOf(TextBlock(kind)), list), p) <==> BlockText(list, p, kind)
  {
    hide FoundAt, Find, TextAt, EachSlots, Has;
    NoneFound(p);
    if list.Arr? {
      EachFound(TextBlock(kind), list.items, |list.items|, p);
      if p != [] && p[0] < |list.items| {
        var b := list.items[p[0]].value;
        BlockFound(kind, b, p[1..]);
        if b.Obj? {
          assert p[1..] == [Find(b.items, "text")] <==> |p| == 2 && p[1] == Find(b.items, "text");
        }
      }
    }
  }

  lemma ContentFound(kind: string, v: Json, p: Path)
    ensures FoundAt(Slots(TextOrEach(PROMPT, TextBlock(kind)), v), p)
            <==> (v.Str? && p == []) || BlockText(v, p, kind)
  {
    hide FoundAt, Decode, BlockText;
    if v.Str? {
      OneFound(Slot([], Decode(v.raw), PROMPT), p);
      NotList(v, p, kind);
    } else {
      BlocksFound(kind, v, p);
    }
  }

  lemma NotList(v: Json, p: Path, kind: string)
    requires !v.Arr?
    ensures !BlockText(v, p, kind)
  {
  }

  lemma MessageFound(kind: string, m: Json, p: Path)
    ensures FoundAt(Slots(One(Instruction(kind)), m), p)
            <==> m.Obj? && (TextAt(m, "role") == "system" || TextAt(m, "role") == "developer") && Has(m, "content")
                 && p != [] && p[0] == Find(m.items, "content")
                 && ((p[1..] == [] && Get(m, "content").Str?) || BlockText(Get(m, "content"), p[1..], kind))
  {
    hide FoundAt, Find, TextAt, Lift, BlockText;
    NoneFound(p);
    if Choose(Instruction(kind), m).Some? && Has(m, "content") {
      LiftFound(Find(m.items, "content"), Slots(TextOrEach(PROMPT, TextBlock(kind)), Get(m, "content")), p);
      if p != [] { ContentFound(kind, Get(m, "content"), p[1..]); }
    }
  }

  lemma MessagesFound(kind: string, list: Json, p: Path)
    ensures FoundAt(Slots(EachOf(Instruction(kind)), list), p) <==> MessageText(list, p, kind)
  {
    hide FoundAt, Find, TextAt, EachSlots, Has, BlockText;
    NoneFound(p);
    if list.Arr? {
      EachFound(Instruction(kind), list.items, |list.items|, p);
      if p != [] && p[0] < |list.items| {
        MessageFound(kind, list.items[p[0]].value, p[1..]);
        if |p| >= 2 { assert p[1..][1..] == p[2..]; }
      }
    }
  }

  lemma MemberFound(key: string, next: Walk, j: Json, p: Path)
    ensures FoundAt(Slots(One(Member(key, next)), j), p)
            <==> Into(j, key, p) && FoundAt(Slots(next, Get(j, key)), p[1..])
  {
    hide FoundAt, Find, Slots;
    NoneFound(p);
    if Has(j, key) {
      HasIsObj(j, key);
      MemberSlots(key, next, j);
      LiftFound(Find(j.items, key), Slots(next, Get(j, key)), p);
    } else {
      MemberNone(key, next, j);
    }
  }

  lemma HasIsObj(j: Json, key: string)
    requires Has(j, key)
    ensures j.Obj?
  {
  }

  lemma GeminiFound(key: string, j: Json, p: Path)
    ensures FoundAt(Slots(GeminiWalk(key), j), p) <==> SystemPart(j, key, p)
  {
    hide FoundAt, Find, Slots, BlockText, Has, Get;
    var parts := Member("parts", EachOf(TextBlock("")));
    MemberFound(key, One(parts), j, p);
    if Into(j, key, p) {
      MemberFound("parts", EachOf(TextBlock("")), Get(j, key), p[1..]);
      if Into(Get(j, key), "parts", p[1..]) {
        assert p[1..][1..] == p[2..];
        HasIsObj(Get(j, key), "parts");
        BlocksFound("", Get(Get(j, key), "parts"), p[2..]);
      }
    }
  }

  /** The texts that the stages look at are just the instruction texts of the payload. */
  lemma TextsArePlaces(to: Target, j: Json, p: Path)
    ensures FoundAt(Texts(to, j), p) <==> InstructionText(to, j, p)
  {
    hide FoundAt, Find, Slots, BlockText, MessageText, Has, Get, GeminiWalk, SystemPart, HolderAt;
    JoinFound(Lead(to, j), Slots(MainWalk(to, j), j), p);
    NoneFound(p);
    match to
    case ChatTarget => ChatFound(j, p);
    case ResponsesTarget => ResponsesFound(j, p);
    case ClaudeTarget => ClaudeFound(j, p);
    case GeminiTarget => GeminiFound(GeminiKey(j), j, p);
    case AntigravityTarget => AntigravityFound(j, p);
  }

  lemma ChatFound(j: Json, p: Path)
    ensures FoundAt(Slots(One(Member("messages", EachOf(Instruction("text")))), j), p)
            <==> InstructionText(ChatTarget, j, p)
  {
    hide FoundAt, Find, Slots, MessageText, Has, Get;
    MemberFound("messages", EachOf(Instruction("text")), j, p);
    if Into(j, "messages", p) { MessagesFound("text", Get(j, "messages"), p[1..]); }
  }

  lemma ResponsesFound(j: Json, p: Path)
    ensures FoundAt(Slots(LEAD_WALK, j), p)
            || FoundAt(Slots(One(Member("input", EachOf(Instruction("input_text")))), j), p)
            <==> InstructionText(ResponsesTarget, j, p)
  {
    hide FoundAt, Find, Slots, MessageText, Has, Get;
    MemberFound("input", EachOf(Instruction("input_text")), j, p);
    if Into(j, "input", p) { MessagesFound("input_text", Get(j, "input"), p[1..]); }
    MemberFound("instructions", Text(PROMPT), j, p);
    if Into(j, "instructions", p) { TextFound(Get(j, "instructions"), p[1..]); }
  }

  lemma ClaudeFound(j: Json, p: Path)
    ensures FoundAt(Slots(One(Member("system", TextOrEach(PROMPT, TextBlock("text")))), j), p)
            <==> InstructionText(ClaudeTarget, j, p)
  {
    hide FoundAt, Find, Slots, BlockText, Has, Get;
    MemberFound("system", TextOrEach(PROMPT, TextBlock("text")), j, p);
    if Into(j, "system", p) { ContentFound("text", Get(j, "system"), p[1..]); }
  }

  lemma AntigravityFound(j: Json, p: Path)
    ensures FoundAt(Slots(MainWalk(AntigravityTarget, j), j), p) <==> InstructionText(AntigravityTarget, j, p)
  {
    hide FoundAt, Find, BlockText, Has, Get, GeminiWalk, SystemPart, HolderAt;
    NoneFound(p);
    var key := RequestKey(j);
    if Held(j, key) {
      LiftFound(HolderAt(j, key), Slots(GeminiWalk(key), Holder(j, key)), p);
      if p != [] { GeminiFound(key, Holder(j, key), p[1..]); }
    }
  }

  /** They are listed in the order of the text, the instructions field first. */
  lemma TextsInOrder(to: Target, j: Json, i: nat, k: nat)
    requires i < k < |Texts(to, j)|
    ensures Lt(Texts(to, j)[i].path, Texts(to, j)[k].path)
            || (to.ResponsesTarget? && i == 0 && Into(j, "instructions", Texts(to, j)[0].path))
  {
    LeadSlot(j);
    SlotsOrdered(MainWalk(to, j), j);
    hide Slots, HasPath, At, Decode, MainWalk, Lt, Find;
  }
}
