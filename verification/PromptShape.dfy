/** Injection keeps the shape of a request. */
module PromptShape {
  import opened Common
  import opened JsonText
  import opened JsonTree
  import opened JsonEdit
  import opened JsonQuery
  import opened JsonSlots
  import opened JsonGrow
  import opened JsonBuild
  import opened Protocol
  import opened PromptSites
  import opened PromptSitesProofs
  import opened PromptGrowth
  import opened PromptSpots
  import opened Prompts
  import opened PromptLaws
  import opened PromptInsertion
  import opened ProviderShapes

  /* ---------- texts and instruction arrays are in places that no shape looks into ---------- */

  /** What the walk finds is reached under such a name, given how it was reached itself. */
  predicate WalkLoose(w: Walk, loose: bool) {
    match w
    case Text(_) => loose
    case TextOrEach(_, n) => loose && n.TextBlock?
    case EachOf(n) => !n.Member? && (n.TextBlock? ==> loose)
    case ItemAt(_, next) => WalkLoose(next, false) && next.One?
    case One(n) =>
      match n
      case Member(key, next) => WalkLoose(next, Loose(key))
      case _ => true
  }

  lemma LiftLoose(j: Json, k: nat, q: Path, loose: bool)
    requires k < |Items(j)| && HasPath(Items(j)[k].value, q)
    ensures HasPath(j, [k] + q) && LooseAt(j, [k] + q, loose) == LooseAt(Items(j)[k].value, q, LooseItem(j, k))
  {
    ChildAt(j, k, q);
    assert ([k] + q)[1..] == q;
  }

  predicate AllLoose(j: Json, ps: seq<Path>, loose: bool) {
    forall i | 0 <= i < |ps| :: HasPath(j, ps[i]) && LooseAt(j, ps[i], loose)
  }

  function PathsOf(ss: seq<Protocol.Slot>): (ps: seq<Path>)
    ensures |ps| == |ss|
  {
    seq(|ss|, i requires 0 <= i < |ss| => ss[i].path)
  }

  lemma LiftAll(j: Json, k: nat, ps: seq<Path>, loose: bool)
    requires k < |Items(j)| && AllLoose(Items(j)[k].value, ps, LooseItem(j, k))
    ensures AllLoose(j, LiftPaths(k, ps), loose)
  {
    hide LooseAt, HasPath, LooseItem;
    forall i | 0 <= i < |ps| ensures HasPath(j, [k] + ps[i]) && LooseAt(j, [k] + ps[i], loose) {
      LiftLoose(j, k, ps[i], loose);
    }
  }

  lemma PathsLift(k: nat, ss: seq<Protocol.Slot>)
    ensures PathsOf(Lift(k, ss)) == LiftPaths(k, PathsOf(ss))
  {
  }

  lemma MemberLoose(j: Json, key: string)
    requires Has(j, key)
    ensures LooseItem(j, Find(j.items, key)) == Loose(key)
  {
    hide Loose, Decode;
  }

  /** All that a walk finds: its texts and the arrays it passes. */
  predicate FindsLoose(w: Walk, j: Json, loose: bool) {
    AllLoose(j, PathsOf(Slots(w, j)), loose) && AllLoose(j, Arrays(w, j), loose)
  }

  lemma {:induction false} WalksLoose(w: Walk, j: Json, loose: bool)
    requires WalkLoose(w, loose)
    ensures FindsLoose(w, j, loose)
    decreases j, if w.TextOrEach? then 1 else 0
  {
    hide FindsLoose, Loose, LooseItem, Find, Decode, EachSlots, EachArrays;
    match w
    case Text(_) => OneLoose(w, j);
    case TextOrEach(_, n) =>
      if j.Str? { OneLoose(w, j); } else {
        WalksLoose(EachOf(n), j, loose);
        EitherLoose(w, j, loose);
      }
    case EachOf(n) =>
      if j.Arr? {
        EachLoose(n, j, |j.items|, loose);
        EachFinds(n, j, loose);
      } else {
        NoneLoose(w, j, loose);
      }
    case ItemAt(k, next) =>
      if j.Obj? && k < |j.items| {
        WalksLoose(next, j.items[k].value, LooseItem(j, k));
        UpLoose(w, next, j, k, loose);
      } else {
        NoneLoose(w, j, loose);
      }
    case One(n) =>
      if Choose(n, j).Some? && Has(j, Choose(n, j).value.0) {
        var (key, next) := Choose(n, j).value;
        NextLoose(n, j, loose);
        WalksLoose(next, Get(j, key), Loose(key));
        MemberLoose(j, key);
        UpLoose(w, next, j, Find(j.items, key), loose);
      } else {
        NoneLoose(w, j, loose);
      }
  }

  lemma OneLoose(w: Walk, j: Json)
    requires w.Text? || (w.TextOrEach? && j.Str?)
    ensures FindsLoose(w, j, true)
  {
    hide Decode;
    if w.TextOrEach? { assert Arrays(EachOf(w.item), j) == []; }
    assert Arrays(w, j) == [];
    assert forall i | 0 <= i < |Slots(w, j)| :: Slots(w, j)[i].path == [];
  }

  lemma NoneLoose(w: Walk, j: Json, loose: bool)
    requires Slots(w, j) == [] && Arrays(w, j) == []
    ensures FindsLoose(w, j, loose)
  {
  }

  lemma EitherLoose(w: Walk, j: Json, loose: bool)
    requires w.TextOrEach? && !j.Str? && FindsLoose(EachOf(w.item), j, loose)
    ensures FindsLoose(w, j, loose)
  {
    hide AllLoose, EachSlots, EachArrays;
  }

  lemma NextLoose(n: Node, j: Json, loose: bool)
    requires Choose(n, j).Some? && WalkLoose(One(n), loose)
    ensures WalkLoose(Choose(n, j).value.1, Loose(Choose(n, j).value.0))
  {
    NotLoose();
    TextLoose();
    hide Loose, TextAt;
  }

  lemma TextLoose()
    ensures Loose("text") && Loose("instructions")
  {
  }

  lemma UpLoose(w: Walk, next: Walk, j: Json, k: nat, loose: bool)
    requires j.Obj? && k < |j.items| && FindsLoose(next, j.items[k].value, LooseItem(j, k))
    requires Slots(w, j) == Lift(k, Slots(next, j.items[k].value))
    requires Arrays(w, j) == LiftPaths(k, Arrays(next, j.items[k].value))
    ensures FindsLoose(w, j, loose)
  {
    hide AllLoose, LooseItem, Slots, Arrays, Lift, LiftPaths, PathsOf;
    var v := j.items[k].value;
    PathsLift(k, Slots(next, v));
    LiftAll(j, k, PathsOf(Slots(next, v)), loose);
    LiftAll(j, k, Arrays(next, v), loose);
  }

  lemma {:induction false} EachLoose(n: Node, j: Json, c: nat, loose: bool)
    requires j.Arr? && c <= |j.items| && !n.Member?
    ensures AllLoose(j, PathsOf(EachSlots(n, j.items, c)), loose)
    ensures AllLoose(j, EachArrays(n, j.items, c), loose)
    decreases j.items, c
  {
    hide AllLoose, Slots, Arrays, Lift, LiftPaths, PathsOf, LooseItem;
    if c == 0 {
      NothingLoose(n, j, loose);
    } else {
      var v := j.items[c - 1].value;
      EachLoose(n, j, c - 1, loose);
      WalksLoose(One(n), v, false);
      assert !LooseItem(j, c - 1) by { NotInArray(j, c - 1); }
      PathsLift(c - 1, Slots(One(n), v));
      LiftAll(j, c - 1, PathsOf(Slots(One(n), v)), loose);
      LiftAll(j, c - 1, Arrays(One(n), v), loose);
      JoinLoose(j, EachSlots(n, j.items, c - 1), Lift(c - 1, Slots(One(n), v)), loose);
      JoinPaths(j, EachArrays(n, j.items, c - 1), LiftPaths(c - 1, Arrays(One(n), v)), loose);
    }
  }

  lemma NotInArray(j: Json, i: nat)
    requires j.Arr? && i < |j.items|
    ensures !LooseItem(j, i)
  {
  }

  lemma NothingLoose(n: Node, j: Json, loose: bool)
    requires j.Arr?
    ensures AllLoose(j, PathsOf(EachSlots(n, j.items, 0)), loose) && AllLoose(j, EachArrays(n, j.items, 0), loose)
  {
  }

  lemma JoinLoose(j: Json, a: seq<Protocol.Slot>, b: seq<Protocol.Slot>, loose: bool)
    requires AllLoose(j, PathsOf(a), loose) && AllLoose(j, PathsOf(b), loose)
    ensures AllLoose(j, PathsOf(a + b), loose)
  {
    hide HasPath, LooseAt;
    assert PathsOf(a + b) == PathsOf(a) + PathsOf(b);
    hide PathsOf;
  }

  lemma JoinPaths(j: Json, a: seq<Path>, b: seq<Path>, loose: bool)
    requires AllLoose(j, a, loose) && AllLoose(j, b, loose)
    ensures AllLoose(j, a + b, loose)
  {
    hide HasPath, LooseAt;
  }

  lemma EachFinds(n: Node, j: Json, loose: bool)
    requires j.Arr? && (n.TextBlock? ==> loose)
    requires AllLoose(j, PathsOf(EachSlots(n, j.items, |j.items|)), loose)
    requires AllLoose(j, EachArrays(n, j.items, |j.items|), loose)
    ensures FindsLoose(EachOf(n), j, loose)
  {
    hide EachSlots, EachArrays, PathsOf;
  }

  /* ---------- every spot ---------- */

  lemma GeminiLoose(key: string)
    ensures WalkLoose(GeminiWalk(key), false)
  {
    NotLoose();
    hide Loose;
    assert WalkLoose(EachOf(TextBlock("")), true);
    assert WalkLoose(One(Member("parts", EachOf(TextBlock("")))), Loose(key));
  }

  lemma MainLoose(to: Target, j: Json)
    ensures WalkLoose(MainWalk(to, j), false) && WalkLoose(LEAD_WALK, false)
  {
    NotLoose();
    TextLoose();
    GeminiLoose(GeminiKey(j));
    GeminiLoose(RequestKey(j));
    hide Loose, RequestKey, HolderAt, GeminiKey;
  }

  lemma TextsLoose(to: Target, j: Json)
    ensures AllLoose(j, PathsOf(Texts(to, j)), false) && AllLoose(j, Arrays(MainWalk(to, j), j), false)
  {
    MainLoose(to, j);
    WalksLoose(MainWalk(to, j), j, false);
    WalksLoose(LEAD_WALK, j, false);
    hide AllLoose, Slots, Arrays, MainWalk, PathsOf;
    NoPaths(j);
    JoinLoose(j, Lead(to, j), Slots(MainWalk(to, j), j), false);
  }

  lemma NoPaths(j: Json)
    ensures AllLoose(j, PathsOf([]), false)
  {
  }

  /** A block written into a text, or put into an instruction array. */
  lemma PlaceKeeps(to: Target, j: Json, p: Path, v: Json)
    requires TreeShape(to, j) && HasPath(j, p) && LooseAt(j, p, false) && SameSort(At(j, p), v)
    ensures TreeShape(to, Put(j, p, v))
  {
    hide *;
    PutLike(j, p, v, false);
    LikeShape(to, j, Put(j, p, v));
  }

  /** A new field that no shape asks for. */
  lemma FieldKeeps(j: Json, key: string, v: Json, name: string, ok: Json -> bool)
    requires j.Obj? && j.items != [] && !Has(j, key) && key != name
    ensures ListOf(Added(j, false, Field(key, v)), name, ok) == ListOf(j, name, ok)
  {
    FieldAdded(j, key, v, name);
    hide Added, Field, Find;
  }

  lemma RootFieldKeeps(to: Target, j: Json, key: string, v: Json)
    requires TreeShape(to, j) && j.items != [] && !Has(j, key)
    requires key == "instructions" || key == "system" || key == "systemInstruction"
    requires !to.AntigravityTarget?
    ensures TreeShape(to, Added(j, false, Field(key, v)))
  {
    assert |"instructions"| == 12 && |"system"| == 6 && |"systemInstruction"| == 17;
    assert |"messages"| == 8 && |"input"| == 5 && |"contents"| == 8;
    AddedObject(j, Field(key, v));
    hide ListOf, Added, Field, Has;
    match to
    case ChatTarget => FieldKeeps(j, key, v, "messages", ChatOk);
    case ResponsesTarget => FieldKeeps(j, key, v, "input", ItemOk);
    case ClaudeTarget => FieldKeeps(j, key, v, "messages", RoleOk);
    case GeminiTarget => FieldKeeps(j, key, v, "contents", GeminiOk);
  }

  lemma AddedObject(j: Json, e: Elem)
    requires j.Obj?
    ensures Added(j, false, e).Obj?
  {
  }

  lemma MemberReplaced(j: Json, key: string, v: Json)
    requires Has(j, key)
    ensures var k: nat := Find(j.items, key);
            && HasPath(j, [k]) && At(j, [k]) == Get(j, key) && Put(j, [k], v).Obj?
            && Has(Put(j, [k], v), key) && Get(Put(j, [k], v), key) == v
  {
    var k: nat := Find(j.items, key);
    hide Find, NameIs;
    MemberAt(j, k);
    PutStep(j, [k], v);
    assert [k][1..] == [];
    RootPath(Items(j)[k].value, v);
    SetChildFind(j, k, v, key);
    hide Put;
  }

  /** A system message in front of the others. */
  lemma MessageKeeps(j: Json, raw: string)
    requires TreeShape(ChatTarget, j)
    ensures Has(j, "messages") && Get(j, "messages").Arr?
    ensures var k: nat := Find(j.items, "messages");
            HasPath(j, [k]) && At(j, [k]) == Get(j, "messages")
            && TreeShape(ChatTarget, Put(j, [k], Added(Get(j, "messages"), true, Item(MessagePart(Str(raw))))))
  {
    var m := Get(j, "messages");
    var m' := Added(m, true, Item(MessagePart(Str(raw))));
    hide Find, MessagePart, ChatOk, Added, Item, Put, HasPath, At;
    MessagesKept(m, raw);
    MemberReplaced(j, "messages", m');
  }

  lemma MessagesKept(m: Json, raw: string)
    requires m.Arr? && m.items != []
    requires forall i | 0 <= i < |m.items| :: m.items[i].value.Obj? && ChatOk(m.items[i].value)
    ensures var m' := Added(m, true, Item(MessagePart(Str(raw))));
            && m'.Arr? && m'.items != []
            && forall i | 0 <= i < |m'.items| :: m'.items[i].value.Obj? && ChatOk(m'.items[i].value)
  {
    var e := Item(MessagePart(Str(raw)));
    MessageOk(raw);
    ItemIs(MessagePart(Str(raw)));
    AddedShape(m, true, e);
    hide MessagePart, ChatOk, Added, Item;
    var m' := Added(m, true, e);
    forall i | 0 <= i < |m'.items| ensures m'.items[i].value.Obj? && ChatOk(m'.items[i].value) {
      if i > 0 { assert m'.items[i] == m.items[i - 1]; }
    }
  }

  lemma ItemIs(v: Json)
    ensures Item(v).value == v
  {
  }

  lemma MessageOk(raw: string)
    ensures MessagePart(Str(raw)).Obj? && ChatOk(MessagePart(Str(raw)))
  {
    var m, role := MessagePart(Str(raw)), Str(Encode("system"));
    FieldName("role", role, "role");
    FieldValue("role", role);
    DecodeEncode("system");
    hide Encode, Decode, NameIs, Field;
    assert m.items[0] == Field("role", role) && NameIs(m.items[0], "role");
    FindField(m.items, "role", 0);
    assert TextAt(m, "role") == "system";
  }

  /** One request member replaced by one that has the same contents. */
  lemma RequestKeeps(j: Json, r: nat, h: Json)
    requires TreeShape(AntigravityTarget, j) && r == Find(j.items, "request") && h.Obj?
    requires var g := Get(j, "request");
             Has(h, "contents") == Has(g, "contents")
             && (ListOf(g, "contents", GeminiOk) ==> ListOf(h, "contents", GeminiOk))
    ensures HasPath(j, [r]) && At(j, [r]) == Get(j, "request") && TreeShape(AntigravityTarget, Put(j, [r], h))
  {
    hide Find, ListOf, FindHolder, Decode, Has;
    MemberAt(j, r);
    PutStep(j, [r], h);
    assert [r][1..] == [];
    RootPath(Items(j)[r].value, h);
    SetChildFind(j, r, h, "request");
    var k := Put(j, [r], h);
    assert k.Obj? && k.items == j.items[r := j.items[r].(value := h)];
    forall i | 0 <= i < |j.items| ensures Holds(k.items[i], "contents") == Holds(j.items[i], "contents") {}
    SameHolder(k.items, j.items, "contents");
    hide Holds;
  }

  lemma RequestIs(j: Json)
    requires TreeShape(AntigravityTarget, j)
    ensures Has(j, "request") && j.Obj? && Get(j, "request").Obj?
  {
    hide ListOf, HolderAt;
  }

  lemma RequestFieldKeeps(j: Json, v: Json)
    requires TreeShape(AntigravityTarget, j) && Has(j, "request")
    requires Items(Get(j, "request")) != [] && !Has(Get(j, "request"), "systemInstruction")
    ensures Get(j, "request").Obj?
    ensures var r: nat := Find(j.items, "request");
            && HasPath(j, [r]) && At(j, [r]) == Get(j, "request")
            && TreeShape(AntigravityTarget, Put(j, [r], Added(Get(j, "request"), false, Field("systemInstruction", v))))
  {
    RequestIs(j);
    var g := Get(j, "request");
    assert g.items != [];
    hide *;
    NamesDiffer();
    AddedObject(g, Field("systemInstruction", v));
    FieldAdded(g, "systemInstruction", v, "contents");
    FieldKeeps(g, "systemInstruction", v, "contents", GeminiOk);
    RequestKeeps(j, Find(j.items, "request"), Added(g, false, Field("systemInstruction", v)));
  }

  lemma NamesDiffer()
    ensures "systemInstruction" != "contents"
  {
    assert |"systemInstruction"| == 17 && |"contents"| == 8;
  }

  /* ---------- every stage ---------- */

  lemma AppliedAdd(j: Json, p: Path, front: bool, e: Elem, hole: Path, raw: string, filled: Json)
    requires SpotFits(j, Add(p, front, e, hole)) && Put(e.value, hole, Str(raw)) == filled
    ensures Applied(j, Add(p, front, e, hole), raw) == Put(j, p, Added(At(j, p), front, e.(value := filled)))
  {
    hide HasPath, At, Put, WfElem, Added;
  }

  lemma AppliedField(j: Json, p: Path, key: string, value: Json, hole: Path, raw: string, filled: Json)
    requires SpotFits(j, Add(p, false, Field(key, value), hole)) && HasPath(value, hole)
    requires Put(value, hole, Str(raw)) == filled
    ensures HasPath(j, p) && (At(j, p).Arr? || At(j, p).Obj?)
    ensures Applied(j, Add(p, false, Field(key, value), hole), raw)
            == Put(j, p, Added(At(j, p), false, Field(key, filled)))
  {
    FieldValue(key, value);
    FieldPut(key, value, filled);
    hide HasPath, At, Put, WfElem, Added, Field, Applied;
    AppliedAdd(j, p, false, Field(key, value), hole, raw, filled);
  }

  /** The fallback keeps the shape. */
  predicate Kept(to: Target, j: Json, raw: string) {
    Fallback(to, j).Some? && SpotFits(j, Fallback(to, j).value) && TreeShape(to, Applied(j, Fallback(to, j).value, raw))
  }

  lemma IsKept(to: Target, j: Json, spot: Spot, raw: string, k: Json)
    requires Fallback(to, j) == Some(spot) && SpotFits(j, spot) && Applied(j, spot, raw) == k && TreeShape(to, k)
    ensures Kept(to, j, raw)
  {
    hide Fallback, SpotFits, Applied, TreeShape;
  }

  lemma FallbackFits(to: Target, j: Json, raw: string)
    requires Supported(to, j) && Texts(to, j) == [] && Arrays(MainWalk(to, j), j) == []
    ensures Fallback(to, j).Some? && SpotFits(j, Fallback(to, j).value)
  {
    FallbackSpot(to, j, raw);
    hide Texts, Arrays, MainWalk, Fallback, SpotFits, Supported;
  }

  lemma ChatKept(j: Json, raw: string)
    requires TreeShape(ChatTarget, j) && Supported(ChatTarget, j)
    requires Fallback(ChatTarget, j).Some? && SpotFits(j, Fallback(ChatTarget, j).value)
    ensures Kept(ChatTarget, j, raw)
  {
    MessageKeeps(j, raw);
    ChatSpot(j);
    hide *;
    var k: nat := Find(j.items, "messages");
    MessageWf(raw);
    ItemValue(MessagePart(BLANK), MessagePart(Str(raw)));
    AppliedAdd(j, [k], true, Item(MessagePart(BLANK)), [1], raw, MessagePart(Str(raw)));
    IsKept(ChatTarget, j, Add([k], true, Item(MessagePart(BLANK)), [1]), raw,
           Put(j, [k], Added(Get(j, "messages"), true, Item(MessagePart(Str(raw))))));
  }

  lemma ChatSpot(j: Json)
    requires Has(j, "messages") && Get(j, "messages").Arr?
    ensures Fallback(ChatTarget, j) == Some(Add([Find(j.items, "messages")], true, Item(MessagePart(BLANK)), [1]))
    ensures j.Obj?
  {
    hide Find, MessagePart, Item;
  }

  /** A field of the root that is not there yet. */
  lemma FieldKept(to: Target, j: Json, key: string, value: Json, hole: Path, raw: string, filled: Json)
    requires TreeShape(to, j) && j.Obj? && j.items != [] && !Has(j, key) && !to.AntigravityTarget?
    requires key == "instructions" || key == "system" || key == "systemInstruction"
    requires Fallback(to, j) == Some(Add([], false, Field(key, value), hole))
    requires SpotFits(j, Add([], false, Field(key, value), hole))
    requires HasPath(value, hole) && Put(value, hole, Str(raw)) == filled
    ensures Kept(to, j, raw)
  {
    hide *;
    AppliedField(j, [], key, value, hole, raw, filled);
    RootPath(j, Added(j, false, Field(key, filled)));
    RootFieldKeeps(to, j, key, filled);
    IsKept(to, j, Add([], false, Field(key, value), hole), raw, Added(j, false, Field(key, filled)));
  }

  lemma NoInstructions(j: Json)
    requires Supported(ResponsesTarget, j) && Texts(ResponsesTarget, j) == []
    ensures !Has(j, "instructions") && j.Obj? && j.items != []
    ensures Fallback(ResponsesTarget, j) == Some(Add([], false, Field("instructions", BLANK), []))
  {
    HasObj(j, "input");
    if Has(j, "instructions") { InstructionsSeen(j); }
    hide Texts, Field, Has;
  }

  lemma NoSystem(j: Json)
    requires Supported(ClaudeTarget, j) && Texts(ClaudeTarget, j) == [] && Arrays(MainWalk(ClaudeTarget, j), j) == []
    ensures !Has(j, "system") && j.Obj? && j.items != []
    ensures Fallback(ClaudeTarget, j) == Some(Add([], false, Field("system", BLANK), []))
  {
    HasObj(j, "messages");
    if Has(j, "system") { SystemSeen(j); }
    hide Texts, Field, Has, Arrays;
  }

  lemma NoGemini(j: Json)
    requires Supported(GeminiTarget, j) && Arrays(MainWalk(GeminiTarget, j), j) == []
    ensures !Has(j, "systemInstruction") && j.Obj? && j.items != []
    ensures Fallback(GeminiTarget, j)
            == Some(Add([], false, Field("systemInstruction", GeminiSystem(BLANK)), SYSTEM_HOLE))
  {
    assert ROOT == [];
    hide *;
    GeminiCase(j);
    NoSystemKey(j, ROOT);
  }

  lemma RequestSpotKept(j: Json, raw: string)
    requires TreeShape(AntigravityTarget, j) && Supported(AntigravityTarget, j)
    requires Arrays(MainWalk(AntigravityTarget, j), j) == []
    requires Fallback(AntigravityTarget, j).Some? && SpotFits(j, Fallback(AntigravityTarget, j).value)
    ensures Kept(AntigravityTarget, j, raw)
  {
    hide *;
    RequestIs(j);
    if Held(j, RequestKey(j)) { RequestArrays(j); }
    RequestCase(j);
    FirstHolds(j, "systemInstruction");
    ItemsOf(Get(j, "request"));
    var r: nat := Find(j.items, "request");
    GeminiWf(raw);
    RequestFieldKeeps(j, GeminiSystem(Str(raw)));
    AppliedField(j, [r], "systemInstruction", GeminiSystem(BLANK), SYSTEM_HOLE, raw, GeminiSystem(Str(raw)));
    IsKept(AntigravityTarget, j, Add([r], false, Field("systemInstruction", GeminiSystem(BLANK)), SYSTEM_HOLE), raw,
           Put(j, [r], Added(Get(j, "request"), false, Field("systemInstruction", GeminiSystem(Str(raw))))));
  }

  lemma ItemsOf(j: Json)
    ensures j.Obj? ==> Items(j) == j.items
  {
  }

  lemma FallbackKeeps(to: Target, j: Json, raw: string)
    requires TreeShape(to, j) && Supported(to, j) && Texts(to, j) == [] && Arrays(MainWalk(to, j), j) == []
    ensures Kept(to, j, raw)
  {
    hide *;
    FallbackFits(to, j, raw);
    BlankField("instructions", raw);
    GeminiWf(raw);
    match to
    case ChatTarget => ChatKept(j, raw);
    case ResponsesTarget =>
      NoInstructions(j);
      FieldKept(to, j, "instructions", BLANK, [], raw, Str(raw));
    case ClaudeTarget =>
      NoSystem(j);
      FieldKept(to, j, "system", BLANK, [], raw, Str(raw));
    case GeminiTarget =>
      NoGemini(j);
      FieldKept(to, j, "systemInstruction", GeminiSystem(BLANK), SYSTEM_HOLE, raw, GeminiSystem(Str(raw)));
    case AntigravityTarget => RequestSpotKept(j, raw);
  }

  lemma FillKeeps(to: Target, j: Json, s: Stage)
    requires TreeShape(to, j) && Texts(to, j) != []
    ensures Ready(to, j) && TreeShape(to, StageRoot(j, to, s))
  {
    hide TreeShape, Texts, Arrays, MainWalk, Supported, FilledRaw, HasPath, At, Put, LooseAt, StageRoot, Ready;
    FilledTexts(to, j, s);
    TextsLoose(to, j);
    var p := Texts(to, j)[ChosenText(to, j, s)].path;
    assert PathsOf(Texts(to, j))[ChosenText(to, j, s)] == p;
    PlaceKeeps(to, j, p, Str(FilledRaw(At(j, p).raw, s)));
  }

  /** Where a new block goes when there is no text. */
  lemma NewSpotIs(to: Target, j: Json, s: Stage)
    requires Ready(to, j) && Texts(to, j) == []
    ensures Supported(to, j)
    ensures var spot, ps := SpotAt(to, j, s.first), Arrays(MainWalk(to, j), j);
            && StageRoot(j, to, s) == Applied(j, spot, Encode(Block(s)))
            && (ps == [] ==> Fallback(to, j) == Some(spot))
            && (ps != [] ==> spot.Add? && !spot.front && spot.path in ps && spot.elem.key.NoKey?)
  {
    hide Texts, Arrays, MainWalk, Supported, SpotFits, Fallback, TextPart, TextHole, Applied, Encode, Block, NewPath;
    hide Decode, FilledRaw;
    var ps := Arrays(MainWalk(to, j), j);
    ReadySpot(to, j, s.first);
    AddedTexts(to, j, s);
    if ps != [] { SelectIn(ps, s.first); }
  }

  lemma ArrayKeeps(to: Target, j: Json, spot: Spot, raw: string)
    requires TreeShape(to, j) && SpotFits(j, spot) && spot.Add? && spot.elem.key.NoKey?
    requires spot.path in Arrays(MainWalk(to, j), j)
    ensures TreeShape(to, Applied(j, spot, raw))
  {
    hide TreeShape, Texts, Arrays, MainWalk, HasPath, At, Put, LooseAt, Wf;
    TextsLoose(to, j);
    var a := At(j, spot.path);
    assert a.Arr?;
    ArrayStays(a, spot.front, Filled(spot.elem, spot.hole, raw));
    PlaceKeeps(to, j, spot.path, Added(a, spot.front, Filled(spot.elem, spot.hole, raw)));
  }

  lemma ArrayStays(a: Json, front: bool, e: Elem)
    requires a.Arr?
    ensures SameSort(a, Added(a, front, e))
  {
  }

  /** A stage keeps the shape of every request it has a place in. */
  lemma StageKeepsShape(to: Target, j: Json, s: Stage)
    requires TreeShape(to, j) && Ready(to, j)
    ensures TreeShape(to, StageRoot(j, to, s))
  {
    hide *;
    if Texts(to, j) != [] {
      FillKeeps(to, j, s);
    } else {
      NewSpotIs(to, j, s);
      if Arrays(MainWalk(to, j), j) != [] {
        ArrayKeeps(to, j, SpotAt(to, j, s.first), Encode(Block(s)));
      } else {
        FallbackKeeps(to, j, Encode(Block(s)));
        KeptIs(to, j, Encode(Block(s)));
      }
    }
  }

  lemma KeptIs(to: Target, j: Json, raw: string)
    requires Kept(to, j, raw)
    ensures Fallback(to, j).Some? && SpotFits(j, Fallback(to, j).value)
    ensures TreeShape(to, Applied(j, Fallback(to, j).value, raw))
  {
    hide Fallback, SpotFits, Applied, TreeShape;
  }
}
