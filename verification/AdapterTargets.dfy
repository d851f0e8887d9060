/** Where the targets of a projection lie, and that nothing else of the payload changes. */
module ProjectionTargets {
  import opened JsonTree
  import opened JsonEdit
  import opened JsonQuery
  import opened JsonSlots
  import opened JsonValue
  import opened Protocol
  import opened Projection
  import opened Headroom

  /* ---------- the places whose text may change ---------- */

  /** The path leads into the member of this name. */
  predicate Under(j: Json, key: string, p: Path) {
    Has(j, key) && p != [] && p[0] == Find(j.items, key)
  }

  /** The path leads into an item of the array under this name. */
  predicate UnderItem(j: Json, key: string, p: Path) {
    Under(j, key, p) && Get(j, key).Arr? && |p| > 1 && p[1] < |Get(j, key).items|
  }

  function ItemOf(j: Json, key: string, p: Path): Json
    requires UnderItem(j, key, p)
  {
    Get(j, key).items[p[1]].value
  }

  /** The text of a part that is no thought, or a function response. */
  predicate PartPlace(part: Json, p: Path) {
    if Has(part, "text") then Under(part, "text", p) && !(Has(part, "thought") && Get(part, "thought") == Lit("true"))
    else Under(part, "functionResponse", p)
  }

  predicate GeminiPlace(request: Json, p: Path) {
    UnderItem(request, "contents", p) &&
    var content := ItemOf(request, "contents", p);
    UnderItem(content, "parts", p[2..]) && PartPlace(ItemOf(content, "parts", p[2..]), p[4..])
  }

  predicate MessagePlace(m: Json, p: Path) { Mutable(TextAt(m, "role")) && Under(m, "content", p) }

  /** Content of messages that are not system or developer messages, tool outputs, and such parts. */
  predicate MayChange(to: string, root: Json, p: Path) {
    if to == "openai" || to == "claude" then
      UnderItem(root, "messages", p) && MessagePlace(ItemOf(root, "messages", p), p[2..])
    else if to == "gemini" then GeminiPlace(root, p)
    else if to == "antigravity" then Under(root, "request", p) && GeminiPlace(Get(root, "request"), p[1..])
    else
      UnderItem(root, "input", p) &&
      var item := ItemOf(root, "input", p);
      MessagePlace(item, p[2..]) || (OutputType(TextAt(item, "type")) && Under(item, "output", p[2..]))
  }

  /* ---------- every target is such a place ---------- */

  lemma LevelUnder(n: Level, j: Json, k: nat, marshal: JValue -> string)
    requires ProjectLevel(n, j, marshal).Some? && k < |ProjectLevel(n, j, marshal).value.slots|
    ensures var step := StepOf(n, j, marshal);
            && step.Into? && Has(j, step.key) && ProjectSub(step.sub, Get(j, step.key), marshal).Some?
            && var inner := ProjectSub(step.sub, Get(j, step.key), marshal).value.slots;
               k < |inner| && ProjectLevel(n, j, marshal).value.slots[k].path
                   == [Find(j.items, step.key)] + inner[k].path
  {
    hide StepOf, Find, ProjectSub;
  }

  lemma {:induction false} ItemsUnder(n: Level, es: seq<Elem>, c: nat, k: nat, marshal: JValue -> string)
    returns (i: nat, q: nat)
    requires c <= |es| && ProjectItems(n, es, c, marshal).Some? && k < |ProjectItems(n, es, c, marshal).value.slots|
    ensures i < c && ProjectLevel(n, es[i].value, marshal).Some?
    ensures var inner := ProjectLevel(n, es[i].value, marshal).value.slots;
            q < |inner| && ProjectItems(n, es, c, marshal).value.slots[k].path == [i] + inner[q].path
  {
    hide ProjectLevel;
    var front := ProjectItems(n, es, c - 1, marshal).value.slots;
    if k < |front| { i, q := ItemsUnder(n, es, c - 1, k, marshal); } else { i, q := c - 1, k - |front|; }
  }

  /** A level that looks at every item of an array. */
  lemma EachUnder(n: Level, j: Json, k: nat, marshal: JValue -> string) returns (q: nat)
    requires ProjectLevel(n, j, marshal).Some? && k < |ProjectLevel(n, j, marshal).value.slots|
    requires var step := StepOf(n, j, marshal); step.Into? ==> step.sub.EachItem?
    ensures var step, p := StepOf(n, j, marshal), ProjectLevel(n, j, marshal).value.slots[k].path;
            && step.Into? && step.sub.EachItem? && UnderItem(j, step.key, p)
            && ProjectLevel(step.sub.level, ItemOf(j, step.key, p), marshal).Some?
            && var inner := ProjectLevel(step.sub.level, ItemOf(j, step.key, p), marshal).value.slots;
               q < |inner| && p[2..] == inner[q].path
  {
    hide StepOf, Find, ProjectItems, ProjectLevel;
    LevelUnder(n, j, k, marshal);
    var step := StepOf(n, j, marshal);
    var i;
    i, q := ItemsUnder(step.sub.level, Get(j, step.key).items, |Get(j, step.key).items|, k, marshal);
  }

  lemma ChatUnder(m: Json, k: nat, marshal: JValue -> string)
    requires ProjectLevel(ChatItem, m, marshal).Some? && k < |ProjectLevel(ChatItem, m, marshal).value.slots|
    ensures MessagePlace(m, ProjectLevel(ChatItem, m, marshal).value.slots[k].path)
  {
    hide ChatStep, Find, ProjectLevel, ProjectSub, TextAt, Mutable;
    LevelUnder(ChatItem, m, k, marshal);
    ChatInto(m);
    ChatKey(m);
  }

  lemma ChatKey(m: Json)
    requires m.Obj? && ChatStep(m).Into?
    ensures ChatStep(m).key == "content"
  {
    hide Blocks, Find, TextAt, Fields, ToolFieldsOk, Value, Has, Get, PresentAt, ValidRole, Mutable;
  }

  lemma ClaudeUnder(m: Json, k: nat, marshal: JValue -> string)
    requires ProjectLevel(ClaudeItem, m, marshal).Some? && k < |ProjectLevel(ClaudeItem, m, marshal).value.slots|
    ensures MessagePlace(m, ProjectLevel(ClaudeItem, m, marshal).value.slots[k].path)
  {
    hide Find, ProjectLevel, ProjectSub, TextAt, Has, Get;
    LevelUnder(ClaudeItem, m, k, marshal);
  }

  lemma MessageUnder(m: Json, k: nat, marshal: JValue -> string)
    requires ProjectLevel(MessageItem, m, marshal).Some? && k < |ProjectLevel(MessageItem, m, marshal).value.slots|
    ensures MessagePlace(m, ProjectLevel(MessageItem, m, marshal).value.slots[k].path)
  {
    hide Find, ProjectLevel, ProjectSub, MessageStep, Mutable, TextAt, Has, Get;
    LevelUnder(MessageItem, m, k, marshal);
    MessageKey(m);
  }

  lemma MessageKey(m: Json)
    requires m.Obj? && MessageStep(m).Into?
    ensures MessageStep(m).key == "content" && Mutable(TextAt(m, "role"))
  {
    hide Blocks, Find, TextAt, Has, Get, ValidRole, Mutable;
  }

  lemma OutputUnder(m: Json, k: nat, marshal: JValue -> string)
    requires ProjectLevel(OutputItem, m, marshal).Some? && k < |ProjectLevel(OutputItem, m, marshal).value.slots|
    ensures OutputType(TextAt(m, "type"))
            && Under(m, "output", ProjectLevel(OutputItem, m, marshal).value.slots[k].path)
  {
    hide Find, ProjectLevel, ProjectSub, OutputType, TextAt, Has, Get;
    LevelUnder(OutputItem, m, k, marshal);
  }

  lemma PieceUnder(part: Json, role: string, k: nat, marshal: JValue -> string)
    requires ProjectLevel(GeminiPiece(role), part, marshal).Some?
    requires k < |ProjectLevel(GeminiPiece(role), part, marshal).value.slots|
    ensures PartPlace(part, ProjectLevel(GeminiPiece(role), part, marshal).value.slots[k].path)
  {
    hide Find, ProjectLevel, ProjectSub, TextAt, Has, Get, GeminiId, Value;
    LevelUnder(GeminiPiece(role), part, k, marshal);
  }

  lemma GeminiUnder(j: Json, k: nat, marshal: JValue -> string)
    requires ProjectLevel(GeminiRoot, j, marshal).Some? && k < |ProjectLevel(GeminiRoot, j, marshal).value.slots|
    ensures GeminiPlace(j, ProjectLevel(GeminiRoot, j, marshal).value.slots[k].path)
  {
    hide Find, ProjectLevel, ProjectSub, TextAt, Has, Get, GeminiSystem, PartPlace, PartStep, ItemOf;
    var q := EachUnder(GeminiRoot, j, k, marshal);
    var p := ProjectLevel(GeminiRoot, j, marshal).value.slots[k].path;
    var content := ItemOf(j, "contents", p);
    var r := EachUnder(GeminiItem, content, q, marshal);
    PieceUnder(ItemOf(content, "parts", p[2..]), TextAt(content, "role"), r, marshal);
    assert p[2..][2..] == p[4..];
  }

  lemma MessagesUnder(to: string, root: Json, k: nat, marshal: JValue -> string)
    requires to == "openai" || to == "claude"
    requires Project(to, root, marshal).Some? && k < |Project(to, root, marshal).value.slots|
    ensures MayChange(to, root, Project(to, root, marshal).value.slots[k].path)
  {
    hide Find, ProjectLevel, ProjectSub, Has, Get, UniqueNames, ClaudeSystem, MessagePlace, UnderItem, ItemOf;
    var q := EachUnder(RootLevel(to), root, k, marshal);
    var m := ItemOf(root, "messages", Project(to, root, marshal).value.slots[k].path);
    if to == "openai" { ChatUnder(m, q, marshal); } else { ClaudeUnder(m, q, marshal); }
  }

  lemma InputUnder(to: string, root: Json, k: nat, marshal: JValue -> string)
    requires RootLevel(to).ResponsesRoot?
    requires Project(to, root, marshal).Some? && k < |Project(to, root, marshal).value.slots|
    ensures MayChange(to, root, Project(to, root, marshal).value.slots[k].path)
  {
    hide Find, ProjectLevel, ProjectSub, Has, Get, UniqueNames, MessagePlace, UnderItem, ItemOf, AnyOutput,
         OutputType, Under;
    var q := EachUnder(RootLevel(to), root, k, marshal);
    var m := ItemOf(root, "input", Project(to, root, marshal).value.slots[k].path);
    if AnyOutput(Get(root, "input")) { OutputUnder(m, q, marshal); } else { MessageUnder(m, q, marshal); }
  }

  lemma RequestUnder(root: Json, k: nat, marshal: JValue -> string)
    requires Project("antigravity", root, marshal).Some? && k < |Project("antigravity", root, marshal).value.slots|
    ensures MayChange("antigravity", root, Project("antigravity", root, marshal).value.slots[k].path)
  {
    hide Find, ProjectLevel, Has, Get, UniqueNames, GeminiPlace;
    LevelUnder(AntigravityRoot, root, k, marshal);
    GeminiUnder(Get(root, "request"), k, marshal);
  }

  /** No target lies in a system or developer message, a system instruction or a thought. */
  lemma TargetsMayChange(to: string, root: Json, k: nat, marshal: JValue -> string)
    requires Project(to, root, marshal).Some? && k < |Project(to, root, marshal).value.slots|
    ensures MayChange(to, root, Project(to, root, marshal).value.slots[k].path)
  {
    hide ProjectLevel, MessagePlace, UnderItem, ItemOf, GeminiPlace, Under, UniqueNames;
    if to == "openai" || to == "claude" { MessagesUnder(to, root, k, marshal); }
    else if to == "gemini" { GeminiUnder(root, k, marshal); }
    else if to == "antigravity" { RequestUnder(root, k, marshal); }
    else { InputUnder(to, root, k, marshal); }
  }

  /* ---------- everything else stays ---------- */

  lemma {:induction false} PutAllElsewhere(j: Json, es: seq<Edit>, p: Path)
    requires EditsFit(j, es) && HasPath(j, p) && forall i | 0 <= i < |es| :: Apart(p, es[i].path)
    ensures HasPath(PutAll(j, es), p) && At(PutAll(j, es), p) == At(j, p)
    decreases |es|
  {
    hide HasPath, At, Put, Lt;
    if es != [] {
      var e := es[|es| - 1];
      PutOther(j, p, e.path, e.value);
      EditsFitPut(j, es);
      PutAllElsewhere(Put(j, e.path, e.value), es[..|es| - 1], p);
    }
  }

  function MainKey(to: string): string {
    if to == "openai" || to == "claude" then "messages"
    else if to == "gemini" then "contents"
    else if to == "antigravity" then "request"
    else "input"
  }

  /** A request's members other than its contents, and thoughts. */
  predicate GeminiProtected(request: Json, p: Path) {
    && HasPath(request, p) && p != []
    && if |p| == 1 then p[0] != Find(Items(request), "contents")
       else |p| == 4 && UnderItem(request, "contents", p)
            && var content := ItemOf(request, "contents", p);
               UnderItem(content, "parts", p[2..])
               && var part := ItemOf(content, "parts", p[2..]);
                  Has(part, "text") && Has(part, "thought") && Get(part, "thought") == Lit("true")
  }

  /** The root's other members, system and developer messages, system instructions and thoughts. */
  predicate Protected(to: string, root: Json, p: Path) {
    && HasPath(root, p) && p != []
    && if |p| == 1 then p[0] != Find(Items(root), MainKey(to))
       else if to == "gemini" then GeminiProtected(root, p)
       else if to == "antigravity" then Under(root, "request", p) && GeminiProtected(Get(root, "request"), p[1..])
       else |p| == 2 && UnderItem(root, MainKey(to), p)
            && var m := ItemOf(root, MainKey(to), p); !Mutable(TextAt(m, "role")) && !OutputType(TextAt(m, "type"))
  }

  lemma FirstApart(p: Path, q: Path)
    requires p != [] && q != [] && p[0] != q[0]
    ensures Apart(p, q)
  {
  }

  lemma SecondApart(p: Path, q: Path)
    requires |p| > 1 && |q| > 1 && p[0] == q[0] && p[1] != q[1]
    ensures Apart(p, q)
  {
    FirstApart(p[1..], q[1..]);
  }

  lemma SharedHead(p: Path, q: Path)
    requires p != [] && q != [] && p[0] == q[0] && Apart(p[1..], q[1..])
    ensures Apart(p, q)
  {
  }

  /** A thought in the same content is another part. */
  lemma ThoughtApart(request: Json, p: Path, q: Path)
    requires GeminiProtected(request, p) && GeminiPlace(request, q) && |p| > 1 && p[1] == q[1]
    ensures p[0] == q[0] && |q| > 3 && p[2] == q[2] && p[3] != q[3]
  {
    hide Find, HasPath;
  }

  lemma GeminiApart(request: Json, p: Path, q: Path)
    requires GeminiProtected(request, p) && GeminiPlace(request, q)
    ensures Apart(p, q)
  {
    assert Under(request, "contents", q) && |q| > 1;
    assert |p| > 1 ==> Under(request, "contents", p);
    if |p| > 1 && p[1] == q[1] { ThoughtApart(request, p, q); }
    hide GeminiPlace, GeminiProtected, Apart, Find;
    if p[0] != q[0] {
      FirstApart(p, q);
    } else if p[1] != q[1] {
      SecondApart(p, q);
    } else {
      SecondApart(p[2..], q[2..]);
      assert p[1..][1..] == p[2..] && q[1..][1..] == q[2..];
      SharedHead(p[1..], q[1..]);
      SharedHead(p, q);
    }
  }

  lemma ProtectedApart(to: string, root: Json, p: Path, q: Path)
    requires Protected(to, root, p) && MayChange(to, root, q)
    ensures Apart(p, q)
  {
    hide Find, HasPath, GeminiPlace, GeminiProtected, OutputType, TextAt, Apart;
    if to == "gemini" {
      Whole(root, p);
      GeminiApart(root, p, q);
    } else if |p| == 1 {
      FirstApart(p, q);
    } else if to == "antigravity" {
      GeminiApart(Get(root, "request"), p[1..], q[1..]);
      SharedHead(p, q);
    } else {
      SecondApart(p, q);
    }
  }

  lemma Whole(root: Json, p: Path)
    requires Protected("gemini", root, p)
    ensures GeminiProtected(root, p)
  {
  }

  /** Whatever texts come back, protected parts of the payload stay as they are, spelling and white space included. */
  lemma ProtectedKept(to: string, root: Json, reps: map<int, string>, p: Path, marshal: JValue -> string)
    requires Project(to, root, marshal).Some? && Protected(to, root, p)
    ensures var ss := Project(to, root, marshal).value.slots;
            && EditsFit(root, EditsTo(ss, reps, |ss|))
            && var after := PutAll(root, EditsTo(ss, reps, |ss|));
               HasPath(after, p) && At(after, p) == At(root, p)
  {
    var ss := Project(to, root, marshal).value.slots;
    hide Project, MayChange, EditsFit, EditsTo, PutAll, HasPath, At, Apart;
    ProjectPutAll(to, root, reps, |ss|, marshal);
    EditsAtSlots(ss, reps, |ss|);
    var es := EditsTo(ss, reps, |ss|);
    forall i | 0 <= i < |es| ensures Apart(p, es[i].path) {
      assert es[i] in es;
      var k :| 0 <= k < |ss| && ss[k].path == es[i].path;
      TargetsMayChange(to, root, k, marshal);
      ProtectedApart(to, root, p, ss[k].path);
    }
    PutAllElsewhere(root, es, p);
  }
}
