/**
 The order of the slots in the text: that of the walk if no list it goes through is there twice,
 and not for sure otherwise.
 */
module PayloadOrder {
  import opened Common
  import opened JsonText
  import opened JsonTree
  import opened JsonEdit
  import opened JsonQuery
  import opened JsonSlots
  import opened JsonValue
  import opened JsonPaths
  import opened JsonAlike
  import opened JsonBuild
  import opened Protocol
  import opened PayloadSlots
  import opened Payloads

  /** The texts are found in the order in which they stand in the document. */
  predicate Rising(root: Json, ts: seq<Target>) {
    forall i, k | 0 <= i < k < |ts| && StrVal(root, ts[i].segs) && StrVal(root, ts[k].segs) ::
      Lt(Lookup(root, ts[i].segs).value, Lookup(root, ts[k].segs).value)
  }

  lemma {:induction false} PrefixLt(p: Path, q: Path, m: nat)
    requires m < |p| && m < |q| && p[..m] == q[..m] && p[m] < q[m]
    ensures Lt(p, q)
    decreases m
  {
    if m > 0 {
      assert p[0] == p[..m][0] == q[..m][0] == q[0];
      assert p[1..][..m - 1] == p[..m][1..] == q[..m][1..] == q[1..][..m - 1];
      PrefixLt(p[1..], q[1..], m - 1);
    }
  }

  /** The path leads to one place at most. */
  ghost predicate OnePlace(root: Json, segs: Segs) {
    forall p, q | Follows(root, segs, p) && Follows(root, segs, q) :: p == q
  }

  /** The names of the lists within the items of a list, from the outer to the inner. */
  function Inner(n: Level): seq<string> {
    match n
    case ChatMessage => ["content"]
    case ResponsesItem => ["output"]
    case ClaudeMessage => ["content", "content"]
    case ClaudeBlock => ["content"]
    case GeminiContent => ["parts"]
    case _ => []
  }

  /** No list that is walked is there twice; other names may be repeated. */
  ghost predicate ListsOnce(root: Json, segs: Segs, inner: seq<string>)
    decreases |inner|
  {
    ArrVal(root, segs) ==>
      && OnePlace(root, segs)
      && (inner != [] ==> forall k: nat | k < |ItemsVal(root, segs)| ::
                            ListsOnce(root, In(Nth(segs, k), inner[0]), inner[1..]))
  }

  /** So it is if no name is repeated at all. */
  lemma {:induction false} UniqueListsOnce(root: Json, segs: Segs, inner: seq<string>)
    requires UniqueNames(root)
    ensures ListsOnce(root, segs, inner)
    decreases |inner|
  {
    hide UniqueNames, Follows, ArrVal, ItemsVal;
    forall p, q | Follows(root, segs, p) && Follows(root, segs, q) ensures p == q { FollowsOne(root, segs, p, q); }
    if inner != [] {
      forall k: nat | k < |ItemsVal(root, segs)| ensures ListsOnce(root, In(Nth(segs, k), inner[0]), inner[1..]) {
        UniqueListsOnce(root, In(Nth(segs, k), inner[0]), inner[1..]);
      }
    }
  }

  /** A path through an array that is there once goes to the item it says. */
  lemma ThroughItem(root: Json, segs: Segs, a: Segs, p: Path)
    requires OnePlace(root, segs) && ArrVal(root, segs) && Follows(root, a, p)
    requires |segs| < |a| && a[..|segs|] == segs && a[|segs|].Index?
    ensures |p| == |a| && p[..|segs|] == Lookup(root, segs).value && p[|segs|] == a[|segs|].k
  {
    hide Lookup, HasPath, At, Follows;
    var m := |segs|;
    assert a == segs + a[m..];
    FollowsPrefix(root, segs, a[m..], p);
    assert p[..m] == Lookup(root, segs).value;
    FollowsHas(root, segs, p[..m]);
    FollowsLength(root, a, p);
    FirstStep(At(root, p[..m]), a[m..], p[m..]);
  }

  lemma FollowsLength(j: Json, segs: Segs, p: Path)
    requires Follows(j, segs, p)
    ensures |p| == |segs|
  {
  }

  lemma FirstStep(j: Json, segs: Segs, p: Path)
    requires j.Arr? && Follows(j, segs, p) && segs != [] && segs[0].Index?
    ensures p != [] && p[0] == segs[0].k
  {
  }

  lemma JoinRising(root: Json, segs: Segs, c: nat, front: seq<Target>, last: seq<Target>)
    requires OnePlace(root, segs) && ArrVal(root, segs) && Rising(root, front) && Rising(root, last)
    requires IndexBelow(segs, front, c) && Sound(root, Nth(segs, c), last)
    ensures Rising(root, front + last)
  {
    hide OnePlace, Lookup, HasPath, At, Follows, Lt, SegLt, TextName;
    forall i, k | 0 <= i < |front| && 0 <= k < |last| && StrVal(root, front[i].segs) && StrVal(root, last[k].segs)
      ensures Lt(Lookup(root, front[i].segs).value, Lookup(root, last[k].segs).value)
    {
      var p, q := Lookup(root, front[i].segs).value, Lookup(root, last[k].segs).value;
      AtIndex(segs, c, last[k].segs);
      ThroughItem(root, segs, front[i].segs, p);
      ThroughItem(root, segs, last[k].segs, q);
      PrefixLt(p, q, |segs|);
    }
  }

  lemma {:induction false} EachRising(n: Level, root: Json, segs: Segs, c: nat)
    requires ListsOnce(root, segs, Inner(n)) && c <= |ItemsVal(root, segs)|
    ensures Rising(root, Each(n, root, segs, c))
    decreases Rank(n), 1, c
  {
    hide OfItem, Rising, Sound, IndexBelow, Rank, ArrVal, Val, OnePlace, Inner;
    NoneRising(root);
    if c > 0 {
      EachRising(n, root, segs, c - 1);
      EachSound(n, root, segs, c - 1);
      ItemSound(n, root, Nth(segs, c - 1));
      ItemRising(n, root, Nth(segs, c - 1));
      NoTargets(root, Nth(segs, c - 1));
      JoinRising(root, segs, c - 1, Each(n, root, segs, c - 1),
                 if ItemsVal(root, segs)[c - 1].value.Obj? then OfItem(n, root, Nth(segs, c - 1)) else []);
    }
  }

  lemma NoneRising(root: Json)
    ensures Rising(root, []) && forall t :: Rising(root, [t])
  {
  }

  lemma AllRising(n: Level, root: Json, segs: Segs)
    requires ListsOnce(root, segs, Inner(n))
    ensures Rising(root, All(n, root, segs))
    decreases Rank(n), 2, 0
  {
    hide ListsOnce, Each, Rising, ItemsVal;
    EachRising(n, root, segs, |ItemsVal(root, segs)|);
  }

  lemma ContentRising(root: Json, segs: Segs, mark: Mark, responses: bool)
    requires ListsOnce(root, segs, [])
    ensures Rising(root, Content(root, segs, mark, responses))
    decreases 1, 3, 0
  {
    hide ListsOnce, All, Rising;
    NoneRising(root);
    AllRising(ResultBlock(mark, responses), root, segs);
  }

  lemma InnerRest(n: Level)
    ensures n.ChatMessage? || n.ResponsesItem? || n.ClaudeBlock? || n.GeminiContent? ==> Inner(n)[1..] == []
    ensures n.ClaudeMessage? ==> Inner(n)[1..] == Inner(ClaudeBlock)
  {
  }

  lemma {:induction false} ItemRising(n: Level, root: Json, base: Segs)
    requires Inner(n) != [] ==> ListsOnce(root, In(base, Inner(n)[0]), Inner(n)[1..])
    ensures Rising(root, OfItem(n, root, base))
    decreases Rank(n), 0, 0
  {
    hide ListsOnce, Rising, TextVal, StrVal, ObjVal, ErrorVal, ResponseId, OutputType, BlockType, Content, All, In;
    NoneRising(root);
    InnerRest(n);
    match n
    case ChatMessage =>
      var id := TextVal(root, In(base, "tool_call_id"));
      ContentRising(root, In(base, "content"), Mark(id, OpenAIChat, ErrorVal(root, base)), false);
    case ResponsesItem =>
      var id := TextVal(root, In(base, "call_id"));
      ContentRising(root, In(base, "output"), Mark(id, OpenAIResponses, ErrorVal(root, base)), true);
    case ClaudeMessage => AllRising(ClaudeBlock, root, In(base, "content"));
    case ClaudeBlock =>
      var id := TextVal(root, In(base, "tool_use_id"));
      ContentRising(root, In(base, "content"), Mark(id, ClaudeMessages, ErrorVal(root, base)), false);
    case GeminiContent => AllRising(GeminiPart, root, In(base, "parts"));
    case GeminiPart =>
    case ResultBlock(_, _) =>
  }

  /** Where no list is there twice the slots are found in the order of the text. */
  lemma FoundInOrder(to: string, root: Json)
    requires ListsOnce(root, ListSegs(to), Inner(ListLevel(to)))
    ensures OrderedSlots(root, Found(to, root))
  {
    TargetsAreSlots(to, root);
    hide ListsOnce, All, Lookup, Lt, HasPath, At, Decode;
    AllRising(ListLevel(to), root, ListSegs(to));
  }

  /* ---------- with repeated names ---------- */

  lemma LookupItem(list: Json, k: nat, segs: Segs)
    requires list.Arr? && k < |list.items|
    ensures Lookup(list.items[k].value, segs).Some? ==>
              Lookup(list, [Index(k)] + segs) == Some([k] + Lookup(list.items[k].value, segs).value)
    ensures Lookup(list.items[k].value, segs).None? ==> Lookup(list, [Index(k)] + segs).None?
  {
    var all := [Index(k)] + segs;
    assert all[1..] == segs;
    hide Lookup, Follows;
    if Lookup(list.items[k].value, segs).Some? {
      LookupHere(list, all, k);
    } else {
      LookupAll(list, all);
    }
  }

  /** Two members of one name: the second counts where the first does not lead on. */
  lemma LookupTwo(j: Json, name: string, segs: Segs)
    requires j.Obj? && |j.items| == 2 && NameIs(j.items[0], name) && NameIs(j.items[1], name)
    ensures Lookup(j.items[0].value, segs).Some? ==>
              Lookup(j, [Name(name)] + segs) == Some([0] + Lookup(j.items[0].value, segs).value)
    ensures Lookup(j.items[0].value, segs).None? && Lookup(j.items[1].value, segs).Some? ==>
              Lookup(j, [Name(name)] + segs) == Some([1] + Lookup(j.items[1].value, segs).value)
  {
    var all := [Name(name)] + segs;
    assert all[1..] == segs;
    hide NameIs, Lookup, Follows;
    if Lookup(j.items[0].value, segs).Some? {
      LookupHere(j, all, 0);
    } else if Lookup(j.items[1].value, segs).Some? {
      LookupHere(j, all, 1);
    }
  }

  function Key(i: nat): string { if i == 0 then "role" else if i == 1 then "tool_call_id" else "content" }

  datatype Tool = Tool(id: string, text: string)

  function Text(i: nat, t: Tool): string { if i == 0 then "tool" else if i == 1 then t.id else t.text }
  function Part(i: nat, t: Tool): Elem { Field(Key(i), Str(Encode(Text(i, t)))) }
  function Message(t: Tool): Json { Obj([Part(0, t), Part(1, t), Part(2, t)], "") }

  /** Two lists of messages under one name; item 0 of the first has no members. */
  function Twice(a: Tool, b: Tool): Json {
    Obj([Field("messages", Arr([Item(Obj([], "")), Item(Message(a))], "")),
         Field("messages", Arr([Item(Message(b))], ""))], "")
  }

  lemma KeysDiffer(i: nat, k: nat)
    requires i < 3 && k < 3
    ensures Key(i) == Key(k) <==> i == k
  {
    assert |"role"| == 4 && |"tool_call_id"| == 12 && |"content"| == 7;
  }

  lemma InMessage(t: Tool, i: nat)
    requires i < 3
    ensures Lookup(Message(t), [Name(Key(i))]) == Some([i])
  {
    hide NameIs, Lookup, Follows, Key, Text, Encode, Decode, Field;
    forall k: nat | k < 3 ensures NameIs(Message(t).items[k], Key(i)) <==> k == i {
      KeysDiffer(i, k);
      FieldName(Key(k), Str(Encode(Text(k, t))), Key(i));
    }
    LookupOne(Message(t), Key(i), i);
  }

  lemma InEmpty(key: string)
    ensures Lookup(Obj([], ""), [Name(key)]) == None
  {
  }

  function Field0(k: nat, i: nat): Segs { [Name("messages"), Index(k), Name(Key(i))] }
  function Place(k: nat, i: nat): Path { if k == 0 then [1, 0, i] else [0, 1, i] }

  /** Item 0 of the first list has no members, so its fields are those of item 0 of the second. */
  lemma InTwice(a: Tool, b: Tool, i: nat)
    requires i < 3
    ensures Lookup(Twice(a, b), Field0(0, i)) == Some([1, 0, i])
    ensures Lookup(Twice(a, b), Field0(1, i)) == Some([0, 1, i])
  {
    hide NameIs, Lookup, Follows, Key, Encode, Decode, Field, Message;
    var j := Twice(a, b);
    var first, second := Arr([Item(Obj([], "")), Item(Message(a))], ""), Arr([Item(Message(b))], "");
    assert j.items == [Field("messages", first), Field("messages", second)];
    FieldName("messages", first, "messages");
    FieldName("messages", second, "messages");
    FieldValue("messages", first);
    FieldValue("messages", second);
    InMessage(a, i);
    InMessage(b, i);
    InEmpty(Key(i));
    var segs := [Name(Key(i))];
    LookupItem(first, 0, segs);
    LookupItem(first, 1, segs);
    LookupItem(second, 0, segs);
    LookupTwo(j, "messages", [Index(0)] + segs);
    LookupTwo(j, "messages", [Index(1)] + segs);
    assert Field0(0, i) == [Name("messages")] + ([Index(0)] + segs);
    assert Field0(1, i) == [Name("messages")] + ([Index(1)] + segs);
    assert [1] + ([0] + [i]) == [1, 0, i] && [0] + ([1] + [i]) == [0, 1, i];
  }

  /** The message whose field is found under item k. */
  function FoundTool(a: Tool, b: Tool, k: nat): Tool { if k == 0 then b else a }

  lemma PlaceAt(a: Tool, b: Tool, k: nat, i: nat)
    requires k < 2 && i < 3
    ensures HasPath(Twice(a, b), Place(k, i))
    ensures At(Twice(a, b), Place(k, i)) == Str(Encode(Text(i, FoundTool(a, b, k))))
  {
    hide Encode, Key, Text, HasPath, At;
    var j, x := Twice(a, b), if k == 0 then 1 else 0;
    var list := j.items[x].value;
    MemberAt(Message(FoundTool(a, b, k)), i);
    ChildAt(list, 1 - x, [i]);
    ChildAt(j, x, [1 - x] + [i]);
    assert [x] + ([1 - x] + [i]) == Place(k, i);
  }

  lemma ValAt(j: Json, segs: Segs, p: Path)
    requires Lookup(j, segs) == Some(p) && HasPath(j, p)
    ensures Val(j, segs) == Some(At(j, p))
  {
    hide Lookup, HasPath, At, Follows;
  }

  lemma FieldVal(a: Tool, b: Tool, k: nat, i: nat)
    requires k < 2 && i < 3
    ensures Lookup(Twice(a, b), Field0(k, i)) == Some(Place(k, i)) && StrVal(Twice(a, b), Field0(k, i))
    ensures TextVal(Twice(a, b), Field0(k, i)) == Text(i, FoundTool(a, b, k))
  {
    hide *;
    Placed(a, b, k, i);
    PlaceAt(a, b, k, i);
    ValAt(Twice(a, b), Field0(k, i), Place(k, i));
    StrRead(Twice(a, b), Field0(k, i), Text(i, FoundTool(a, b, k)));
  }

  lemma StrRead(j: Json, segs: Segs, text: string)
    requires Val(j, segs) == Some(Str(Encode(text)))
    ensures StrVal(j, segs) && TextVal(j, segs) == text
  {
    hide Val, Encode, Decode;
    DecodeEncode(text);
  }

  lemma Placed(a: Tool, b: Tool, k: nat, i: nat)
    requires k < 2 && i < 3
    ensures Lookup(Twice(a, b), Field0(k, i)) == Some(Place(k, i))
  {
    hide Lookup, Field0, Twice;
    InTwice(a, b, i);
  }

  function TargetOf(a: Tool, b: Tool, k: nat): Target {
    var base := [Name("messages"), Index(k)];
    Target(Field0(k, 2), Mark(FoundTool(a, b, k).id, OpenAIChat, ErrorVal(Twice(a, b), base)))
  }

  lemma ChatFields(base: Segs, k: nat)
    requires base == [Name("messages"), Index(k)]
    ensures In(base, "role") == Field0(k, 0) && In(base, "tool_call_id") == Field0(k, 1)
    ensures In(base, "content") == Field0(k, 2)
  {
  }

  lemma ToolFields(t: Tool)
    ensures Text(0, t) == "tool" && Text(1, t) == t.id
  {
  }

  /** A tool message with a call and a text is one target. */
  lemma ToolItem(j: Json, base: Segs, id: string)
    requires TextVal(j, In(base, "role")) == "tool" && TextVal(j, In(base, "tool_call_id")) == id != ""
    requires StrVal(j, In(base, "content"))
    ensures OfItem(ChatMessage, j, base)
         == [Target(In(base, "content"), Mark(id, OpenAIChat, ErrorVal(j, base)))]
  {
    hide Val, TextVal, StrVal, In, ErrorVal, All;
  }

  lemma TargetParts(a: Tool, b: Tool, k: nat)
    ensures TargetOf(a, b, k) == Target(Field0(k, 2), Mark(FoundTool(a, b, k).id, OpenAIChat,
                                        ErrorVal(Twice(a, b), [Name("messages"), Index(k)])))
    ensures a.id != "" && b.id != "" ==> FoundTool(a, b, k).id != ""
  {
    hide Field0, ErrorVal, Twice;
  }

  lemma ChatItem(a: Tool, b: Tool, k: nat)
    requires k < 2 && a.id != "" && b.id != ""
    ensures OfItem(ChatMessage, Twice(a, b), [Name("messages"), Index(k)]) == [TargetOf(a, b, k)]
  {
    hide *;
    var base := [Name("messages"), Index(k)];
    ChatFields(base, k);
    ToolFields(FoundTool(a, b, k));
    FieldVal(a, b, k, 0);
    FieldVal(a, b, k, 1);
    FieldVal(a, b, k, 2);
    TargetParts(a, b, k);
    ToolItem(Twice(a, b), base, FoundTool(a, b, k).id);
  }

  lemma FirstList(a: Tool, b: Tool)
    ensures var j, list := Twice(a, b), [Name("messages")];
            && Lookup(j, list) == Some([0]) && ArrVal(j, list) && |ItemsVal(j, list)| == 2
            && ItemsVal(j, list)[0].value.Obj? && ItemsVal(j, list)[1].value.Obj?
  {
    hide Lookup, Follows, Encode, Decode, HasPath, At, NameIs, Val;
    var j := Twice(a, b);
    FieldName("messages", j.items[0].value, "messages");
    LookupOne(j, "messages", 0);
    MemberAt(j, 0);
    ValAt(j, [Name("messages")], [0]);
  }

  lemma TwoItems(n: Level, root: Json, segs: Segs)
    requires |ItemsVal(root, segs)| == 2 && ItemsVal(root, segs)[0].value.Obj? && ItemsVal(root, segs)[1].value.Obj?
    ensures All(n, root, segs) == OfItem(n, root, Nth(segs, 0)) + OfItem(n, root, Nth(segs, 1))
  {
    hide OfItem, ItemsVal;
    assert Each(n, root, segs, 2) == Each(n, root, segs, 1) + OfItem(n, root, Nth(segs, 1));
    assert Each(n, root, segs, 1) == Each(n, root, segs, 0) + OfItem(n, root, Nth(segs, 0));
  }

  lemma MessageWf(t: Tool)
    ensures Wf(Message(t)) && WfElem(Item(Message(t)), false) && WfElem(Item(Obj([], "")), false)
  {
    hide Encode, Key, Text, Wf, WfElem, Field;
    forall k: nat | k < 3 ensures WfElem(Part(k, t), true) {
      StrWf(Text(k, t));
      FieldWf(Key(k), Str(Encode(Text(k, t))));
    }
    ObjWf([Part(0, t), Part(1, t), Part(2, t)]);
    ObjWf([]);
    ItemWf(Message(t));
    ItemWf(Obj([], ""));
  }

  lemma TwiceWf(a: Tool, b: Tool)
    ensures Wf(Twice(a, b))
  {
    hide Encode, Decode, Wf, WfElem, Field, Message, Item;
    MessageWf(a);
    MessageWf(b);
    var first, second := [Item(Obj([], "")), Item(Message(a))], [Item(Message(b))];
    ArrWf(first);
    ArrWf(second);
    TwoFields("messages", Arr(first, ""), "messages", Arr(second, ""));
  }

  /** In {"messages":[{},a],"messages":[b]} the texts are found against the order in which they stand. */
  lemma FoundBackwards(a: Tool, b: Tool)
    requires a.id != "" && b.id != ""
    ensures var j := Twice(a, b);
            && Wf(j) && Recognized("openai", j) && |Found("openai", j)| == 2
            && Found("openai", j)[0].text == b.text && Found("openai", j)[1].text == a.text
            && Lt(Found("openai", j)[1].path, Found("openai", j)[0].path)
  {
    hide *;
    var j := Twice(a, b);
    TwiceWf(a, b);
    FirstList(a, b);
    TwiceIsObject(a, b);
    TwiceTargets(a, b);
    FieldVal(a, b, 0, 2);
    FieldVal(a, b, 1, 2);
    TargetIs(a, b, 0);
    TargetIs(a, b, 1);
    ToolTexts(a, b);
    PlacesLt();
    SlotIs(j, TargetOf(a, b, 0));
    SlotIs(j, TargetOf(a, b, 1));
    TwoFound(j, TargetOf(a, b, 0), TargetOf(a, b, 1));
  }

  lemma TwiceIsObject(a: Tool, b: Tool)
    requires ArrVal(Twice(a, b), [Name("messages")])
    ensures Recognized("openai", Twice(a, b))
  {
    hide ArrVal, Encode, Field, Message;
  }

  lemma TwoFound(j: Json, s: Target, t: Target)
    requires Targets("openai", j) == [s, t] && StrVal(j, s.segs) && StrVal(j, t.segs)
    ensures Found("openai", j) == [SlotAt(j, s), SlotAt(j, t)]
  {
    hide Targets, StrVal, SlotAt, SlotsOf, Encode, Decode;
    TargetsAreSlots("openai", j);
  }

  lemma TargetIs(a: Tool, b: Tool, k: nat)
    ensures TargetOf(a, b, k).segs == Field0(k, 2)
  {
    hide Field0, ErrorVal, Twice, Encode;
  }

  lemma ToolTexts(a: Tool, b: Tool)
    ensures FoundTool(a, b, 0) == b && FoundTool(a, b, 1) == a && Text(2, a) == a.text && Text(2, b) == b.text
  {
  }

  lemma PlacesLt()
    ensures Lt(Place(1, 2), Place(0, 2))
  {
  }

  lemma SlotIs(j: Json, t: Target)
    requires StrVal(j, t.segs)
    ensures SlotAt(j, t).text == TextVal(j, t.segs) && SlotAt(j, t).path == Lookup(j, t.segs).value
  {
    hide Lookup, Follows, TextVal, Encode, Decode;
  }

  lemma TwiceTargets(a: Tool, b: Tool)
    requires a.id != "" && b.id != ""
    ensures Targets("openai", Twice(a, b)) == [TargetOf(a, b, 0), TargetOf(a, b, 1)]
  {
    hide *;
    var j, list := Twice(a, b), [Name("messages")];
    FirstList(a, b);
    ChatItem(a, b, 0);
    ChatItem(a, b, 1);
    TwoItems(ChatMessage, j, list);
    TargetsThere(j);
  }

  lemma TargetsThere(j: Json)
    ensures var list := [Name("messages")];
            && Targets("openai", j) == All(ChatMessage, j, list)
            && Nth(list, 0) == [Name("messages"), Index(0)] && Nth(list, 1) == [Name("messages"), Index(1)]
  {
    hide All;
  }
}
