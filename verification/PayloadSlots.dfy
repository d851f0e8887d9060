/** The tool-result texts of a payload, looked up by paths from its root. */
module PayloadSlots {
  import opened JsonText
  import opened JsonTree
  import opened JsonEdit
  import opened JsonSlots
  import opened JsonPaths
  import opened JsonAlike
  import opened Protocol

  /** The arrays that are walked, by what their items are. */
  datatype Level =
    | ChatMessage | ResponsesItem | ClaudeMessage | ClaudeBlock | GeminiContent | GeminiPart
    | ResultBlock(mark: Mark, responses: bool)

  /** A text that was found: its path, and what the view says of it. */
  datatype Target = Target(segs: Segs, mark: Mark)

  function In(segs: Segs, key: string): Segs { segs + [Name(key)] }
  function Nth(segs: Segs, i: nat): Segs { segs + [Index(i)] }

  predicate ErrorVal(root: Json, base: Segs) {
    TruthyVal(root, In(base, "is_error")) || TextVal(root, In(base, "status")) == "error"
  }

  function ResponseId(root: Json, call: Segs): string {
    if TextVal(root, In(call, "id")) != "" then TextVal(root, In(call, "id")) else TextVal(root, In(call, "name"))
  }

  predicate BlockType(responses: bool, kind: string) {
    if responses then kind == "input_text" || kind == "output_text" else kind == "text"
  }

  function Leaf(root: Json, segs: Segs, mark: Mark): seq<Target> {
    if StrVal(root, segs) then [Target(segs, mark)] else []
  }

  function Rank(n: Level): nat {
    match n
    case ResultBlock(_, _) => 1
    case GeminiPart => 1
    case ClaudeMessage => 3
    case _ => 2
  }

  /** The texts of the first c items of an array; only objects are looked into. */
  function Each(n: Level, root: Json, segs: Segs, c: nat): seq<Target>
    requires c <= |ItemsVal(root, segs)|
    decreases Rank(n), 1, c
  {
    if c == 0 then []
    else
      Each(n, root, segs, c - 1)
      + if ItemsVal(root, segs)[c - 1].value.Obj? then OfItem(n, root, Nth(segs, c - 1)) else []
  }

  function All(n: Level, root: Json, segs: Segs): seq<Target>
    decreases Rank(n), 2, 0
  {
    Each(n, root, segs, |ItemsVal(root, segs)|)
  }

  function OfItem(n: Level, root: Json, base: Segs): seq<Target>
    decreases Rank(n), 0, 0
  {
    match n
    case ChatMessage =>
      var id := TextVal(root, In(base, "tool_call_id"));
      if TextVal(root, In(base, "role")) != "tool" || id == "" then []
      else Content(root, In(base, "content"), Mark(id, OpenAIChat, ErrorVal(root, base)), false)
    case ResponsesItem =>
      var id := TextVal(root, In(base, "call_id"));
      if !OutputType(TextVal(root, In(base, "type"))) || id == "" then []
      else Content(root, In(base, "output"), Mark(id, OpenAIResponses, ErrorVal(root, base)), true)
    case ClaudeMessage => All(ClaudeBlock, root, In(base, "content"))
    case ClaudeBlock =>
      var id := TextVal(root, In(base, "tool_use_id"));
      if TextVal(root, In(base, "type")) != "tool_result" || id == "" then []
      else Content(root, In(base, "content"), Mark(id, ClaudeMessages, ErrorVal(root, base)), false)
    case GeminiContent => All(GeminiPart, root, In(base, "parts"))
    case GeminiPart =>
      var call := In(base, "functionResponse");
      if !ObjVal(root, call) || ResponseId(root, call) == "" then []
      else
        var error := ErrorVal(root, call) || Val(root, In(In(call, "response"), "error")).Some?;
        Leaf(root, In(In(call, "response"), "result"), Mark(ResponseId(root, call), Gemini, error))
    case ResultBlock(mark, responses) =>
      if BlockType(responses, TextVal(root, In(base, "type"))) then Leaf(root, In(base, "text"), mark) else []
  }

  /** The content of a result: one text, or blocks. */
  function Content(root: Json, segs: Segs, mark: Mark, responses: bool): seq<Target>
    decreases 1, 3, 0
  {
    if StrVal(root, segs) then [Target(segs, mark)] else All(ResultBlock(mark, responses), root, segs)
  }

  function ListSegs(to: string): Segs {
    if to == "openai" || to == "claude" then [Name("messages")]
    else if to == "gemini" then [Name("contents")]
    else if to == "antigravity" then [Name("request"), Name("contents")]
    else [Name("input")]
  }

  function ListLevel(to: string): Level {
    if to == "openai" then ChatMessage
    else if to == "claude" then ClaudeMessage
    else if to == "gemini" || to == "antigravity" then GeminiContent
    else ResponsesItem
  }

  predicate Recognized(to: string, root: Json) { root.Obj? && ArrVal(root, ListSegs(to)) }

  function Targets(to: string, root: Json): seq<Target> { All(ListLevel(to), root, ListSegs(to)) }

  /* ---------- the targets are different texts ---------- */

  /** The path goes on from base, and ends in a name for text. */
  predicate From(segs: Segs, base: Segs) {
    |base| < |segs| && segs[..|base|] == base && segs[|segs| - 1].Name? && TextName(segs[|segs| - 1].key)
  }

  /** Strings whose paths go on from base and part at indexes, in order. */
  predicate Sound(root: Json, base: Segs, ts: seq<Target>) {
    && (forall i | 0 <= i < |ts| :: StrVal(root, ts[i].segs) && From(ts[i].segs, base))
    && (forall i, k | 0 <= i < k < |ts| :: SegLt(ts[i].segs, ts[k].segs))
  }

  /** The paths go on with an index below c. */
  predicate IndexBelow(base: Segs, ts: seq<Target>, c: nat) {
    forall i | 0 <= i < |ts| ::
      |base| < |ts[i].segs| && ts[i].segs[..|base|] == base && ts[i].segs[|base|].Index? && ts[i].segs[|base|].k < c
  }

  lemma SoundHigher(root: Json, segs: Segs, base: Segs, ts: seq<Target>)
    requires Sound(root, segs, ts) && |base| <= |segs| && segs[..|base|] == base
    ensures Sound(root, base, ts)
  {
    hide StrVal, SegLt, TextName;
    forall i | 0 <= i < |ts| ensures ts[i].segs[..|base|] == base {
      assert From(ts[i].segs, segs);
      assert ts[i].segs[..|segs|][..|base|] == ts[i].segs[..|base|];
    }
  }

  lemma InHigher(base: Segs, key: string)
    ensures |base| <= |In(base, key)| && In(base, key)[..|base|] == base
  {
  }

  lemma LeafSound(root: Json, base: Segs, key: string, mark: Mark)
    requires TextName(key)
    ensures Sound(root, base, Leaf(root, In(base, key), mark))
  {
    hide StrVal, SegLt;
  }

  lemma TextNames()
    ensures TextName("content") && TextName("output") && TextName("text") && TextName("result")
  {
  }

  lemma {:induction false} EachSound(n: Level, root: Json, segs: Segs, c: nat)
    requires c <= |ItemsVal(root, segs)|
    ensures Sound(root, segs, Each(n, root, segs, c)) && IndexBelow(segs, Each(n, root, segs, c), c)
    decreases Rank(n), 1, c
  {
    hide OfItem, Sound, IndexBelow, ItemsVal, Rank;
    if c == 0 {
      NoTargets(root, segs);
    } else {
      EachSound(n, root, segs, c - 1);
      ItemSound(n, root, Nth(segs, c - 1));
      NoTargets(root, Nth(segs, c - 1));
      JoinSound(root, segs, c - 1, Each(n, root, segs, c - 1),
                if ItemsVal(root, segs)[c - 1].value.Obj? then OfItem(n, root, Nth(segs, c - 1)) else []);
    }
  }

  lemma NoTargets(root: Json, segs: Segs)
    ensures Sound(root, segs, []) && IndexBelow(segs, [], 0)
  {
  }

  lemma AtIndex(segs: Segs, c: nat, a: Segs)
    requires From(a, Nth(segs, c))
    ensures |a| > |segs| && a == segs + a[|segs|..] && a[|segs|] == Index(c) && From(a, segs)
  {
    assert a[..|segs| + 1][..|segs|] == a[..|segs|];
    assert a[..|segs| + 1][|segs|] == a[|segs|];
  }

  lemma IndexLt(a: Segs, b: Segs)
    requires a != [] && b != [] && a[0].Index? && b[0].Index? && a[0].k < b[0].k
    ensures SegLt(a, b)
  {
  }

  lemma JoinSound(root: Json, segs: Segs, c: nat, front: seq<Target>, last: seq<Target>)
    requires Sound(root, segs, front) && IndexBelow(segs, front, c) && Sound(root, Nth(segs, c), last)
    ensures Sound(root, segs, front + last) && IndexBelow(segs, front + last, c + 1)
  {
    hide StrVal, SegLt, TextName;
    forall k | 0 <= k < |last|
      ensures From(last[k].segs, segs) && last[k].segs == segs + last[k].segs[|segs|..]
              && last[k].segs[|segs|] == Index(c)
    {
      AtIndex(segs, c, last[k].segs);
    }
    forall i, k | 0 <= i < |front| && 0 <= k < |last| ensures SegLt(front[i].segs, last[k].segs) {
      var a, b := front[i].segs, last[k].segs;
      assert a == segs + a[|segs|..];
      IndexLt(a[|segs|..], b[|segs|..]);
      SharedStart(segs, a[|segs|..], b[|segs|..]);
    }
  }

  lemma {:induction false} ItemSound(n: Level, root: Json, base: Segs)
    ensures Sound(root, base, OfItem(n, root, base))
    decreases Rank(n), 0, 0
  {
    hide Sound, StrVal, TextVal, ErrorVal, TextName, Each, Leaf, ObjVal, ResponseId, OutputType, BlockType, Content,
         All, In;
    NoTargets(root, base);
    TextNames();
    match n
    case ChatMessage =>
      var id := TextVal(root, In(base, "tool_call_id"));
      ContentSound(root, base, "content", Mark(id, OpenAIChat, ErrorVal(root, base)), false);
    case ResponsesItem =>
      var id := TextVal(root, In(base, "call_id"));
      ContentSound(root, base, "output", Mark(id, OpenAIResponses, ErrorVal(root, base)), true);
    case ClaudeMessage => AllSound(ClaudeBlock, root, base, "content");
    case ClaudeBlock =>
      var id := TextVal(root, In(base, "tool_use_id"));
      ContentSound(root, base, "content", Mark(id, ClaudeMessages, ErrorVal(root, base)), false);
    case GeminiContent => AllSound(GeminiPart, root, base, "parts");
    case GeminiPart =>
      var call := In(base, "functionResponse");
      var error := ErrorVal(root, call) || Val(root, In(In(call, "response"), "error")).Some?;
      ResultSound(root, base, Mark(ResponseId(root, call), Gemini, error));
    case ResultBlock(mark, responses) => LeafSound(root, base, "text", mark);
  }

  lemma ResultSound(root: Json, base: Segs, mark: Mark)
    ensures Sound(root, base, Leaf(root, In(In(In(base, "functionResponse"), "response"), "result"), mark))
  {
    hide Sound, Leaf, TextName;
    TextNames();
    var call := In(base, "functionResponse");
    LeafSound(root, In(call, "response"), "result", mark);
    assert In(call, "response")[..|base|] == base;
    SoundHigher(root, In(call, "response"), base, Leaf(root, In(In(call, "response"), "result"), mark));
  }

  lemma AllSound(n: Level, root: Json, base: Segs, key: string)
    ensures Sound(root, base, All(n, root, In(base, key)))
    decreases Rank(n), 2, 0
  {
    hide Sound, Each, IndexBelow, ItemsVal;
    InHigher(base, key);
    EachSound(n, root, In(base, key), |ItemsVal(root, In(base, key))|);
    SoundHigher(root, In(base, key), base, All(n, root, In(base, key)));
  }

  lemma ContentSound(root: Json, base: Segs, key: string, mark: Mark, responses: bool)
    requires TextName(key)
    ensures Sound(root, base, Content(root, In(base, key), mark, responses))
    decreases 1, 3, 0
  {
    hide Sound, Each, All, TextName;
    LeafSound(root, base, key, mark);
    AllSound(ResultBlock(mark, responses), root, base, key);
  }

  /* ---------- as slots of the document ---------- */

  predicate AllStrings(root: Json, ts: seq<Target>) { forall i | 0 <= i < |ts| :: StrVal(root, ts[i].segs) }

  function SlotAt(root: Json, t: Target): Protocol.Slot
    requires StrVal(root, t.segs)
  {
    JsonSlots.Slot(Lookup(root, t.segs).value, TextVal(root, t.segs), t.mark)
  }

  function SlotsAt(root: Json, ts: seq<Target>): (ss: seq<Protocol.Slot>)
    requires AllStrings(root, ts)
    ensures |ss| == |ts|
  {
    seq(|ts|, i requires 0 <= i < |ts| => SlotAt(root, ts[i]))
  }

  /** For every document, repeated names or not: the slots are strings, and no two are one. */
  lemma TargetsAreSlots(to: string, root: Json)
    ensures AllStrings(root, Targets(to, root)) && SlotsOf(root, SlotsAt(root, Targets(to, root)))
  {
    hide Lookup, Follows, HasPath, At, SegLt, Decode, TextName, Each, Lt;
    var ts := Targets(to, root);
    EachSound(ListLevel(to), root, ListSegs(to), |ItemsVal(root, ListSegs(to))|);
    var ss := SlotsAt(root, ts);
    forall i | 0 <= i < |ss|
      ensures HasPath(root, ss[i].path) && At(root, ss[i].path).Str? && ss[i].text == Decode(At(root, ss[i].path).raw)
    {
      FollowsHas(root, ts[i].segs, ss[i].path);
    }
    forall i, k | 0 <= i < k < |ss| ensures Apart(ss[i].path, ss[k].path) {
      FollowsApart(root, ts[i].segs, ts[k].segs, ss[i].path, ss[k].path);
    }
  }

  /* ---------- the same targets in a document that differs in texts only ---------- */

  lemma NotText()
    ensures !TextName("role") && !TextName("type") && !TextName("tool_call_id") && !TextName("call_id")
    ensures !TextName("tool_use_id") && !TextName("id") && !TextName("name") && !TextName("status")
    ensures !TextName("is_error")
  {
  }

  lemma ReadsKept(a: Json, b: Json, base: Segs, key: string)
    requires Alike(a, b, false) && !TextName(key)
    ensures TextVal(a, In(base, key)) == TextVal(b, In(base, key))
            && TruthyVal(a, In(base, key)) == TruthyVal(b, In(base, key))
  {
    hide Alike, TextName, TextVal, TruthyVal;
    AlikeText(a, b, In(base, key));
  }

  lemma ErrorKept(a: Json, b: Json, base: Segs)
    requires Alike(a, b, false)
    ensures ErrorVal(a, base) == ErrorVal(b, base)
  {
    hide Alike, TextName, TextVal, TruthyVal, In;
    NotText();
    ReadsKept(a, b, base, "is_error");
    ReadsKept(a, b, base, "status");
  }

  lemma IdKept(a: Json, b: Json, call: Segs)
    requires Alike(a, b, false)
    ensures ResponseId(a, call) == ResponseId(b, call)
  {
    hide Alike, TextName, TextVal, TruthyVal, In;
    NotText();
    ReadsKept(a, b, call, "id");
    ReadsKept(a, b, call, "name");
  }

  lemma {:induction false} EachKept(n: Level, a: Json, b: Json, segs: Segs, c: nat)
    requires Alike(a, b, false) && c <= |ItemsVal(a, segs)|
    ensures c <= |ItemsVal(b, segs)| && Each(n, a, segs, c) == Each(n, b, segs, c)
    decreases Rank(n), 1, c
  {
    hide Alike, OfItem, ItemsVal, Rank, StrVal, ArrVal, ObjVal, Val;
    AlikeVal(a, b, segs);
    if c > 0 {
      EachKept(n, a, b, segs, c - 1);
      ItemKept(n, a, b, Nth(segs, c - 1));
    }
  }

  lemma AllKept(n: Level, a: Json, b: Json, segs: Segs)
    requires Alike(a, b, false)
    ensures All(n, a, segs) == All(n, b, segs)
    decreases Rank(n), 2, 0
  {
    hide Alike, Each, ItemsVal, StrVal, ArrVal, ObjVal, Val;
    AlikeVal(a, b, segs);
    EachKept(n, a, b, segs, |ItemsVal(a, segs)|);
  }

  lemma ContentKept(a: Json, b: Json, segs: Segs, mark: Mark, responses: bool)
    requires Alike(a, b, false)
    ensures Content(a, segs, mark, responses) == Content(b, segs, mark, responses)
    decreases 1, 3, 0
  {
    hide Alike, All, ItemsVal, StrVal, ArrVal, ObjVal, Val;
    AlikeVal(a, b, segs);
    AllKept(ResultBlock(mark, responses), a, b, segs);
  }

  lemma {:induction false} ItemKept(n: Level, a: Json, b: Json, base: Segs)
    requires Alike(a, b, false)
    ensures OfItem(n, a, base) == OfItem(n, b, base)
    decreases Rank(n), 0, 0
  {
    hide Alike, All, Content, ItemsVal, StrVal, ArrVal, ObjVal, TextVal, ErrorVal, ResponseId, TextName, OutputType,
         In, BlockType;
    NotText();
    ErrorKept(a, b, base);
    match n
    case ChatMessage =>
      ReadsKept(a, b, base, "role");
      ReadsKept(a, b, base, "tool_call_id");
      ContentKept(a, b, In(base, "content"),
                  Mark(TextVal(a, In(base, "tool_call_id")), OpenAIChat, ErrorVal(a, base)), false);
    case ResponsesItem =>
      ReadsKept(a, b, base, "type");
      ReadsKept(a, b, base, "call_id");
      ContentKept(a, b, In(base, "output"), Mark(TextVal(a, In(base, "call_id")), OpenAIResponses, ErrorVal(a, base)),
                  true);
    case ClaudeMessage => AllKept(ClaudeBlock, a, b, In(base, "content"));
    case ClaudeBlock =>
      ReadsKept(a, b, base, "type");
      ReadsKept(a, b, base, "tool_use_id");
      ContentKept(a, b, In(base, "content"),
                  Mark(TextVal(a, In(base, "tool_use_id")), ClaudeMessages, ErrorVal(a, base)), false);
    case GeminiContent => AllKept(GeminiPart, a, b, In(base, "parts"));
    case GeminiPart => PartKept(a, b, In(base, "functionResponse"));
    case ResultBlock(_, _) =>
      ReadsKept(a, b, base, "type");
      AlikeVal(a, b, In(base, "text"));
  }

  lemma PartKept(a: Json, b: Json, call: Segs)
    requires Alike(a, b, false)
    ensures ObjVal(a, call) == ObjVal(b, call) && ResponseId(a, call) == ResponseId(b, call)
    ensures ErrorVal(a, call) == ErrorVal(b, call)
    ensures Val(a, In(In(call, "response"), "error")).Some? == Val(b, In(In(call, "response"), "error")).Some?
    ensures StrVal(a, In(In(call, "response"), "result")) == StrVal(b, In(In(call, "response"), "result"))
  {
    hide *;
    ErrorKept(a, b, call);
    IdKept(a, b, call);
    AlikeVal(a, b, call);
    AlikeVal(a, b, In(In(call, "response"), "error"));
    AlikeVal(a, b, In(In(call, "response"), "result"));
  }

  lemma TargetsKept(to: string, a: Json, b: Json)
    requires Alike(a, b, false)
    ensures Targets(to, a) == Targets(to, b) && Recognized(to, a) == Recognized(to, b)
  {
    AlikeVal(a, b, ListSegs(to));
    hide All, ArrVal;
    AllKept(ListLevel(to), a, b, ListSegs(to));
  }

  /** A target read again: at the same place, whatever is there now. */
  lemma SameSlot(a: Json, b: Json, t: Target)
    requires Alike(a, b, false) && StrVal(a, t.segs)
    ensures StrVal(b, t.segs) && SlotAt(b, t).path == SlotAt(a, t).path && SlotAt(b, t).mark == SlotAt(a, t).mark
    ensures HasPath(b, SlotAt(b, t).path) && At(b, SlotAt(b, t).path).Str?
    ensures SlotAt(b, t).text == Decode(At(b, SlotAt(b, t).path).raw)
  {
    hide Alike, Lookup, Follows, HasPath, At, Decode;
    AlikeVal(a, b, t.segs);
    AlikeLookup(a, b, false, t.segs);
    FollowsHas(b, t.segs, Lookup(b, t.segs).value);
  }

  /** The strings found are where texts may differ. */
  lemma TargetsFree(to: string, root: Json, i: nat)
    requires i < |Targets(to, root)| && AllStrings(root, Targets(to, root))
    ensures var p := SlotAt(root, Targets(to, root)[i]).path; HasPath(root, p) && FreeAt(root, p, false)
  {
    hide Lookup, Follows, HasPath, FreeAt, SegLt, Each, TextName;
    var t := Targets(to, root)[i];
    EachSound(ListLevel(to), root, ListSegs(to), |ItemsVal(root, ListSegs(to))|);
    assert From(t.segs, ListSegs(to));
    FollowsFree(root, t.segs, SlotAt(root, t).path, false);
  }
}
