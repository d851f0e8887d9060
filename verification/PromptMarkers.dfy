/** What a stage does to the markers in the body: it brings its own and touches no other. */
module PromptMarkers {
  import opened Common
  import opened JsonText
  import opened JsonTree
  import opened JsonEdit
  import opened JsonQuery
  import opened JsonGrow
  import opened JsonBuild
  import opened Markers
  import opened PromptSites
  import opened PromptSpots
  import opened Prompts
  import opened PromptInsertion

  /* ---------- characters of what a stage writes ---------- */

  predicate Plain(s: string) { forall i | 0 <= i < |s| :: s[i] != 'R' }

  lemma PlainParts(a: string, b: string)
    ensures Plain(a + b) <==> Plain(a) && Plain(b)
  {
    assert forall i | 0 <= i < |b| :: b[i] == (a + b)[|a| + i];
    assert forall i | 0 <= i < |a| :: a[i] == (a + b)[i];
  }

  lemma OccursTag(s: string, m: string, k: nat)
    requires Tagged(m)
    ensures Occurs(s, m, k) ==> k + 15 < |s| && s[k + 15] == 'R'
  {
    if Occurs(s, m, k) { assert s[k + 15] == s[k..k + |m|][15]; }
  }

  lemma PlainHasNone(s: string, m: string)
    requires Plain(s) && Tagged(m)
    ensures !Contains(s, m)
  {
    forall k: nat ensures !Occurs(s, m, k) { OccursTag(s, m, k); }
  }

  lemma {:induction false} PlainEncode(s: string)
    requires Plain(s)
    ensures Plain(Encode(s))
  {
    if s != "" {
      assert s == [s[0]] + s[1..];
      PlainParts([s[0]], s[1..]);
      PlainEncode(s[1..]);
      PlainChar(s[0]);
      hide Encode, EncodeChar, Plain;
      EncodeStep(s);
      PlainParts(EncodeChar(s[0]), Encode(s[1..]));
    }
  }

  lemma PlainChar(c: char)
    requires c != 'R'
    ensures Plain(EncodeChar(c))
  {
  }

  lemma PlainField(name: string, v: Json)
    requires Plain(name) && Plain(Print(v))
    ensures Plain(PrintElem(Field(name, v)))
  {
    PlainEncode(name);
    hide Encode, Print;
    var e := Field(name, v);
    assert PrintElem(e) == ("\"" + Encode(name)) + ("\":" + Print(v));
    PlainParts("\"", Encode(name));
    PlainParts("\":", Print(v));
    hide Plain;
    PlainParts("\"" + Encode(name), "\":" + Print(v));
  }

  lemma PlainItem(v: Json)
    requires Plain(Print(v))
    ensures Plain(PrintElem(Item(v)))
  {
    hide Print;
    assert PrintElem(Item(v)) == Print(v);
  }

  lemma PlainStr(text: string)
    requires Plain(text)
    ensures Plain(Print(Str(Encode(text))))
  {
    PlainEncode(text);
    hide Encode;
  }

  lemma PlainOne(e: Elem, named: bool)
    requires Plain(PrintElem(e))
    ensures Plain(Print(if named then Obj([e], "") else Arr([e], "")))
  {
    hide PrintElem;
    PrintOne(e);
    PrintBody(if named then Obj([e], "") else Arr([e], ""));
  }

  lemma PlainTwo(a: Elem, b: Elem)
    requires Plain(PrintElem(a)) && Plain(PrintElem(b))
    ensures Plain(Print(Obj([a, b], "")))
  {
    hide PrintElem;
    PrintOne(a);
    ItemsAdded([a], b);
    assert [a] + [b] == [a, b];
    PlainParts(PrintElem(a), "," + PrintElem(b));
    PrintBody(Obj([a, b], ""));
    hide Print;
  }

  lemma PlainBlank()
    ensures BLANK.Str? && Plain(Print(BLANK))
  {
  }

  lemma PlainPart(kind: string)
    requires Plain(kind)
    ensures Plain(PrintElem(Item(TextPart(kind, BLANK))))
  {
    PlainBlank();
    PlainStr(kind);
    assert Plain("text") && Plain("type");
    hide Encode, Print, PrintElem, Field, Plain;
    PlainField("text", BLANK);
    PlainField("type", Str(Encode(kind)));
    PlainOne(Field("text", BLANK), true);
    PlainTwo(Field("type", Str(Encode(kind))), Field("text", BLANK));
    PlainItem(TextPart(kind, BLANK));
  }

  lemma PlainMessage()
    ensures Plain(PrintElem(Item(MessagePart(BLANK))))
  {
    PlainBlank();
    assert Plain("role") && Plain("system") && Plain("content");
    PlainStr("system");
    hide Encode, Print, PrintElem, Field, Plain;
    PlainField("role", Str(Encode("system")));
    PlainField("content", BLANK);
    PlainTwo(Field("role", Str(Encode("system"))), Field("content", BLANK));
    PlainItem(MessagePart(BLANK));
  }

  lemma PlainSystem()
    ensures Plain(PrintElem(Field("systemInstruction", GeminiSystem(BLANK))))
  {
    assert Plain("parts") && Plain("systemInstruction") && Plain("");
    PlainPart("");
    hide Encode, Print, PrintElem, Field, Plain, TextPart;
    var parts := Arr([Item(TextPart("", BLANK))], "");
    PlainOne(Item(TextPart("", BLANK)), false);
    PlainField("parts", parts);
    PlainOne(Field("parts", parts), true);
    PlainField("systemInstruction", GeminiSystem(BLANK));
  }

  /* ---------- the spots a stage chooses ---------- */

  predicate Written(j: Json, spot: Spot)
    requires SpotFits(j, spot)
  {
    spot.Add? ==>
      var a := At(j, spot.path);
      && (spot.elem.value.Obj? || spot.elem.value.Str?)
      && Plain(PrintElem(spot.elem))
      && (a.Arr? ==> spot.elem.key.NoKey? && spot.elem.value.Obj?)
      && (spot.front ==> a.Arr? && a.items != [] && a.items[0].value.Obj?)
  }

  lemma SpotCases(to: Target, j: Json, first: bool)
    requires Ready(to, j)
    ensures var spot := SpotAt(to, j, first);
            spot.Add? ==>
              || (!spot.front && spot.elem == Item(TextPart(PartKind(to), BLANK)))
              || (Supported(to, j) && Fallback(to, j) == Some(spot))
  {
    ReadySpot(to, j, first);
    hide Texts, Arrays, Supported, MainWalk, TextPart, TextHole, SpotFits, Field, PartKind, Fallback, Item;
  }

  lemma SpotWritten(to: Target, j: Json, first: bool)
    requires Ready(to, j)
    ensures Written(j, SpotAt(to, j, first))
  {
    hide *;
    SpotCases(to, j, first);
    var spot := SpotAt(to, j, first);
    if spot.Fill? {
      FillWritten(j, spot);
    } else if !spot.front && spot.elem == Item(TextPart(PartKind(to), BLANK)) {
      PlainKind(to);
      PlainPart(PartKind(to));
      PartWritten(j, spot, PartKind(to));
    } else {
      match to
      case ChatTarget => ChatWritten(j, spot);
      case ResponsesTarget => ResponsesWritten(j, spot);
      case ClaudeTarget => ClaudeWritten(j, spot);
      case GeminiTarget => GeminiWritten(j, spot);
      case AntigravityTarget => AntigravityWritten(j, spot);
    }
  }

  lemma PlainKind(to: Target)
    ensures Plain(PartKind(to))
  {
  }

  lemma FillWritten(j: Json, spot: Spot)
    requires SpotFits(j, spot) && spot.Fill?
    ensures Written(j, spot)
  {
  }

  lemma PartWritten(j: Json, spot: Spot, kind: string)
    requires SpotFits(j, spot) && spot.Add? && !spot.front && spot.elem == Item(TextPart(kind, BLANK))
    requires Plain(PrintElem(spot.elem))
    ensures Written(j, spot)
  {
    hide Plain, PrintElem, Field, HasPath, At, SpotFits;
  }

  lemma FieldWritten(j: Json, spot: Spot, key: string, value: Json)
    requires SpotFits(j, spot) && spot.Add? && !spot.front && spot.elem == Field(key, value)
    requires Plain(PrintElem(spot.elem)) && (value.Str? || value.Obj?)
    ensures Written(j, spot)
  {
    hide Plain, PrintElem, HasPath, At, WfElem;
    FieldNamed(key, value, At(j, spot.path).Obj?);
  }

  lemma FieldNamed(key: string, value: Json, named: bool)
    requires WfElem(Field(key, value), named)
    ensures named
  {
  }

  lemma PlainNames()
    ensures Plain("instructions") && Plain("system")
  {
  }

  lemma FallbackField(j: Json)
    ensures j.Obj? ==> Fallback(ResponsesTarget, j) == Some(Add([], false, Field("instructions", BLANK), []))
    ensures j.Obj? ==> Fallback(ClaudeTarget, j) == Some(Add([], false, Field("system", BLANK), []))
    ensures !j.Obj? ==> Fallback(ResponsesTarget, j).None? && Fallback(ClaudeTarget, j).None?
  {
    hide Field;
  }

  lemma ChatWritten(j: Json, spot: Spot)
    requires Supported(ChatTarget, j) && Fallback(ChatTarget, j) == Some(spot) && SpotFits(j, spot)
    ensures Written(j, spot)
  {
    assert spot == Add([Find(j.items, "messages")], true, Item(MessagePart(BLANK)), [1]);
    MemberAt(j, Find(j.items, "messages"));
    var m := Get(j, "messages");
    assert m == At(j, spot.path) && m.Arr? && m.items != [] && m.items[0].value.Obj?;
    ItemValue(MessagePart(BLANK), BLANK);
    assert MessagePart(BLANK).Obj? && Item(MessagePart(BLANK)).key.NoKey?;
    hide *;
    PlainMessage();
  }

  lemma ResponsesWritten(j: Json, spot: Spot)
    requires Fallback(ResponsesTarget, j) == Some(spot) && SpotFits(j, spot)
    ensures Written(j, spot)
  {
    FallbackField(j);
    hide *;
    PlainNames();
    PlainBlank();
    PlainField("instructions", BLANK);
    FieldWritten(j, spot, "instructions", BLANK);
  }

  lemma ClaudeWritten(j: Json, spot: Spot)
    requires Fallback(ClaudeTarget, j) == Some(spot) && SpotFits(j, spot)
    ensures Written(j, spot)
  {
    FallbackField(j);
    hide *;
    PlainNames();
    PlainBlank();
    PlainField("system", BLANK);
    FieldWritten(j, spot, "system", BLANK);
  }

  lemma GeminiWritten(j: Json, spot: Spot)
    requires Fallback(GeminiTarget, j) == Some(spot) && SpotFits(j, spot)
    ensures Written(j, spot)
  {
    hide Print, Plain, PrintElem, SpotFits, Field, Has, GeminiKey;
    PlainSystem();
    FieldWritten(j, spot, "systemInstruction", GeminiSystem(BLANK));
  }

  lemma AntigravityWritten(j: Json, spot: Spot)
    requires Fallback(AntigravityTarget, j) == Some(spot) && SpotFits(j, spot)
    ensures Written(j, spot)
  {
    hide Print, Plain, PrintElem, SpotFits, Field, GeminiKey, Find;
    PlainSystem();
    FieldWritten(j, spot, "systemInstruction", GeminiSystem(BLANK));
  }

  /* ---------- the characters around an insertion ---------- */

  lemma {:induction false} NumberEnd(q: NumState, s: string)
    requires NumberFrom(q, s) && s != ""
    ensures '0' <= s[|s| - 1] <= '9'
    decreases |s|
  {
    if |s| > 1 {
      NumberEnd(NumStep(q, s[0]), s[1..]);
      assert s[1..][|s| - 2] == s[|s| - 1];
    } else {
      assert NumberFrom(NumStep(q, s[0]), "") && s[1..] == "";
    }
  }

  lemma LastChar(j: Json)
    requires Wf(j)
    ensures Print(j) != ""
    ensures var c := Print(j)[|Print(j)| - 1];
            !Letter(c) && (j.Obj? ==> c == '}') && (j.Str? ==> c == '"')
  {
    hide PrintItems, PrintElem, WfItems, ValidRaw, NumberFrom;
    if j.Lit? {
      LiteralChars(j.text);
      if NumberFrom(Start, j.text) { NumberEnd(Start, j.text); }
    }
  }

  lemma ElemLast(e: Elem, named: bool)
    requires WfElem(e, named)
    ensures PrintElem(e) != "" && !Letter(PrintElem(e)[|PrintElem(e)| - 1])
    ensures Print(e.value) != ""
    ensures e.after == "" ==> PrintElem(e)[|PrintElem(e)| - 1] == Print(e.value)[|Print(e.value)| - 1]
  {
    LastChar(e.value);
    hide Print, Head, Wf, ValidRaw;
    assert e.after != "" ==> IsWs(e.after[|e.after| - 1]);
  }

  lemma OpenBodyLast(j: Json)
    requires j.Arr? && Wf(j)
    ensures var s := "[" + Body(j.items, j.gap); !Letter(s[|s| - 1])
  {
    if j.items == [] {
      assert j.gap != "" ==> IsWs(j.gap[|j.gap| - 1]);
      hide Wf, Print;
    } else {
      var n := |j.items| - 1;
      assert WfElem(j.items[n], false);
      ElemLast(j.items[n], false);
      ItemsSplit(j.items, n);
      assert j.items[n + 1..] == [];
      assert PrintMore([]) == "";
      hide Print, PrintElem, Before, PrintItems, Wf, WfElem;
    }
  }

  lemma FirstOfObject(j: Json)
    requires j.Arr? && Wf(j) && j.items != [] && j.items[0].value.Obj?
    ensures Body(j.items, j.gap) != "" && !Inner(Body(j.items, j.gap)[0])
  {
    assert WfElem(j.items[0], false);
    ObjectLead(j.items[0]);
    hide PrintElem, Wf;
  }

  lemma ObjectLead(e: Elem)
    requires WfElem(e, false) && e.value.Obj?
    ensures PrintElem(e) != "" && !Inner(PrintElem(e)[0])
  {
    FirstChar(e.value);
    hide Print, Wf;
    assert e.before != "" ==> IsWs(e.before[0]);
  }

  /** Where an item is added, no marker passes. */
  lemma AddCut(j: Json, front: bool)
    requires Wf(j) && (j.Arr? || j.Obj?) && (front ==> j.Arr? && j.items != [] && j.items[0].value.Obj?)
    ensures var k := AddAt(j, front);
            1 <= k < |Print(j)| && CutChars(Print(j)[k - 1], Print(j)[k]) && (!front ==> Print(j)[k] == Close(j)[0])
  {
    PrintBody(j);
    if front { FirstOfObject(j); } else if j.Arr? { OpenBodyLast(j); }
    hide Print, Body, Wf;
    var b := Body(j.items, j.gap);
    assert Print(j) == Open(j) + (b + Close(j));
  }

  /** The text of an added item begins and ends with characters no marker passes. */
  lemma AddEnds(j: Json, front: bool, e: Elem, k: Elem, named: bool)
    requires (j.Arr? || j.Obj?) && WfElem(k, named) && k.before == k.after == "" && named == j.Obj?
    requires k.value.Obj? || k.value.Str?
    requires j.Arr? ==> k.value.Obj?
    requires front ==> j.Arr? && j.items != []
    ensures var x := AddText(j, front, k);
            && x != "" && !Inner(x[0]) && !Inner(x[|x| - 1]) && x[|x| - 1] != '['
  {
    ElemLast(k, named);
    LastChar(k.value);
    hide Print, Wf, PrintElem, WfElem;
    if j.Arr? { ObjectLead(k); }
  }

  lemma FilledKind(e: Elem, hole: Path, raw: string)
    requires HasPath(e.value, hole) && At(e.value, hole).Str? && (e.value.Obj? || e.value.Str?)
    ensures var k := Filled(e, hole, raw);
            && k.before == e.before && k.after == e.after && k.key == e.key
            && k.value.Obj? == e.value.Obj? && k.value.Str? == e.value.Str?
  {
  }

  predicate GapOk(v: Json, at: int, x: string) {
    && 1 <= at < |Print(v)| && x != "" && !Inner(x[0])
    && CutChars(Print(v)[at - 1], Print(v)[at]) && CutChars(x[|x| - 1], Print(v)[at])
  }

  lemma FillGap(raw: string, s: Stage)
    requires Fenced(s)
    ensures GapOk(Str(raw), 1 + Cut(raw, s), Encode(Insertion(raw, s)))
  {
    FilledPrint(raw, s);
    var k := Cut(raw, s);
    assert MarkerAt(raw, s).Some? ==> raw[k] == raw[k..k + |s.insertBefore.value|][0];
    assert (raw[k..] + "\"")[0] == Print(Str(raw))[1 + k..][0] == Print(Str(raw))[1 + k];
    InsertionFirst(raw, s);
    EncodeStep(Insertion(raw, s));
    hide Print, Encode, Insertion, Decode;
  }

  lemma InsertionFirst(raw: string, s: Stage)
    requires Fenced(s)
    ensures var t := Insertion(raw, s); t != "" && EncodeChar(t[0]) != "" && !Inner(EncodeChar(t[0])[0])
  {
    hide Decode;
    assert s.start[0] == '[';
  }

  lemma AddGap(j: Json, front: bool, k: Elem)
    requires Wf(j) && (j.Arr? || j.Obj?) && (front ==> j.Arr? && j.items != [] && j.items[0].value.Obj?)
    requires WfElem(k, j.Obj?) && k.before == k.after == "" && (k.value.Obj? || k.value.Str?)
             && (j.Arr? ==> k.value.Obj?)
    ensures GapOk(j, AddAt(j, front), AddText(j, front, k))
  {
    AddCut(j, front);
    AddEnds(j, front, k, k, j.Obj?);
    hide Print, AddText, AddAt, Wf, WfElem;
  }

  lemma SpotGap(j: Json, spot: Spot, s: Stage)
    requires Wf(j) && Fenced(s) && SpotFits(j, spot) && Written(j, spot)
    ensures GapOk(At(j, spot.path), OffsetFor(j, spot, s), TextFor(j, spot, s))
  {
    AtWf(j, spot.path);
    match spot
    case Fill(p) =>
      hide HasPath, At, Cut, Encode, Insertion, GapOk;
      FillGap(At(j, p).raw, s);
    case Add(p, front, e, hole) =>
      var raw := Encode(Block(s));
      DecodeEncode(Block(s));
      FilledElem(e, hole, raw, At(j, p).Obj?);
      FilledKind(e, hole, raw);
      hide HasPath, At, Encode, Block, GapOk, Filled, Wf, WfElem, AddText, AddAt, Plain, PrintElem;
      AddGap(At(j, p), front, Filled(e, hole, raw));
  }

  /** No marker passes the place where x is inserted, nor the ends of x. */
  predicate BodyGapOk(body: string, at: int, x: string) {
    && 0 <= at <= |body| && x != "" && !Inner(x[0])
    && Cuttable(body[..at], body[at..]) && Cuttable(x, body[at..])
  }

  lemma StageGap(d: Doc, to: Target, s: Stage)
    requires WfDoc(d) && Ready(to, d.root) && Fenced(s)
    ensures BodyGapOk(PrintDoc(d), StageAt(d, to, s), StageText(d, to, s))
  {
    hide Ready, SpotFits, SpotAt, PrintDoc, Left, OffsetFor, TextFor, BodyGapOk, Written, WfDoc, Fenced;
    var spot := SpotAt(to, d.root, s.first);
    SpotHas(d.root, spot);
    SpotWritten(to, d.root, s.first);
    SpotGapInBody(d, spot, s);
  }

  lemma SpotGapInBody(d: Doc, spot: Spot, s: Stage)
    requires WfDoc(d) && SpotFits(d.root, spot) && HasPath(d.root, spot.path) && Written(d.root, spot) && Fenced(s)
    ensures BodyGapOk(PrintDoc(d), |d.lead| + |Left(d.root, spot.path)| + OffsetFor(d.root, spot, s),
                      TextFor(d.root, spot, s))
  {
    hide SpotFits, Written, PrintDoc, Print, HasPath, At, Wf, Left, OffsetFor, TextFor, Put, NewValue, Insert, Fenced;
    hide Applied, RawFor, GapOk, BodyGapOk;
    SpotGap(d.root, spot, s);
    NewValueFits(d.root, spot, s);
    PutInserts(d, spot.path, NewValue(d.root, spot, s), OffsetFor(d.root, spot, s), TextFor(d.root, spot, s));
    BodyGap(PrintDoc(d), |d.lead| + |Left(d.root, spot.path)|, At(d.root, spot.path), OffsetFor(d.root, spot, s),
            TextFor(d.root, spot, s));
  }

  lemma BodyGap(body: string, k: nat, v: Json, offset: int, x: string)
    requires k + |Print(v)| <= |body| && body[k..k + |Print(v)|] == Print(v) && GapOk(v, offset, x)
    ensures BodyGapOk(body, k + offset, x)
  {
    hide Print;
    assert body[k + offset] == body[k..k + |Print(v)|][offset]
           && body[k + offset - 1] == body[k..k + |Print(v)|][offset - 1];
  }

  /* ---------- markers before and after ---------- */

  lemma BlockEncoded(s: Stage)
    requires Fenced(s)
    ensures Contains(Encode(Block(s)), s.start)
  {
    EncodeInner(s.start);
    assert Block(s) == s.start + ("\n" + s.prompt + "\n" + s.end);
    EncodeConcat(s.start, "\n" + s.prompt + "\n" + s.end);
    hide Encode, Block;
    var rest := Encode("\n" + s.prompt + "\n" + s.end);
    assert (s.start + rest)[0..|s.start|] == s.start;
    Occurring(s.start + rest, s.start, 0);
  }

  /** Whatever a stage inserts is its encoded block with something before and after it. */
  lemma TextParts(j: Json, spot: Spot, s: Stage) returns (pre: string, post: string)
    requires Fenced(s) && SpotFits(j, spot) && Written(j, spot)
    ensures TextFor(j, spot, s) == pre + Encode(Block(s)) + post
    ensures Plain(pre) && Plain(post) && (post == "" || !Inner(post[0]))
  {
    match spot
    case Fill(p) =>
      pre, post := FillParts(At(j, p).raw, s);
    case Add(p, front, e, hole) =>
      hide HasPath, At, Encode, Block, WfElem, PrintElem, Print;
      pre, post := AddParts(At(j, p), front, e, hole, Encode(Block(s)));
  }

  lemma EncodedBreaks()
    ensures Encode("\n\n") == "\\n\\n" && Plain("\\n\\n")
  {
    EncodeConcat("\n", "\n");
    assert "\n\n" == "\n" + "\n";
    EncodeStep("\n");
  }

  lemma FillParts(raw: string, s: Stage) returns (pre: string, post: string)
    ensures Encode(Insertion(raw, s)) == pre + Encode(Block(s)) + post
    ensures Plain(pre) && Plain(post) && (post == "" || !Inner(post[0]))
  {
    var nn := "\n\n";
    EncodedBreaks();
    EncodeConcat(nn, Block(s));
    EncodeConcat(Block(s), nn);
    hide Encode, Block, Decode;
    if MarkerAt(raw, s).Some? {
      pre, post := "", Encode(nn);
    } else {
      pre, post := if Decode(raw) != "" then Encode(nn) else "", "";
    }
    assert "" + Encode(Block(s)) + post == Encode(Block(s)) + post
           && pre + Encode(Block(s)) + "" == pre + Encode(Block(s));
  }

  /** A filled item, printed: its blank text with the literal between the two quotes. */
  lemma HoleParts(e: Elem, hole: Path, raw: string) returns (l: string, r: string)
    requires HasPath(e.value, hole) && At(e.value, hole) == BLANK && e.after == ""
    ensures PrintElem(e) == l + r && PrintElem(Filled(e, hole, raw)) == l + raw + r && r != "" && r[0] == '"'
  {
    var v := e.value;
    PrintAt(v, hole);
    PutAt(v, hole, Str(raw));
    PrintAt(Put(v, hole, Str(raw)), hole);
    l, r := Head(e) + (Left(v, hole) + "\""), "\"" + Right(v, hole);
    assert Print(BLANK) == "\"\"" && Print(Str(raw)) == "\"" + raw + "\"";
    assert Head(Filled(e, hole, raw)) == Head(e);
    hide Print, Left, Right, At, Put, HasPath, Head;
    Quotes(Head(e), Left(v, hole), Right(v, hole), raw);
  }

  lemma Quotes(h: string, l: string, r: string, raw: string)
    ensures h + (l + "\"\"" + r) + "" == (h + (l + "\"")) + ("\"" + r)
    ensures h + (l + ("\"" + raw + "\"") + r) + "" == (h + (l + "\"")) + raw + ("\"" + r)
  {
    assert "\"\"" == "\"" + "\"";
  }

  lemma AddParts(j: Json, front: bool, e: Elem, hole: Path, raw: string) returns (pre: string, post: string)
    requires HasPath(e.value, hole) && At(e.value, hole) == BLANK && e.after == "" && Plain(PrintElem(e))
    ensures AddText(j, front, Filled(e, hole, raw)) == pre + raw + post
    ensures Plain(pre) && Plain(post) && (post == "" || !Inner(post[0]))
  {
    var l, r := HoleParts(e, hole, raw);
    var comma := if j.Arr? && j.items == [] then "" else ",";
    assert Plain(comma);
    hide PrintElem, Filled, Plain, HasPath, At;
    PlainParts(l, r);
    if front {
      pre, post := l, r + comma;
      assert l + raw + r + comma == l + raw + (r + comma);
      PlainParts(r, comma);
    } else {
      pre, post := comma + l, r;
      assert comma + (l + raw + r) == comma + l + raw + r;
      PlainParts(comma, l);
    }
  }

  /** A stage's text holds its own start marker, and no marker of another stage. */
  lemma TextMarkers(j: Json, spot: Spot, s: Stage, m: string)
    requires Fenced(s) && SpotFits(j, spot) && Written(j, spot)
    ensures Contains(TextFor(j, spot, s), s.start)
    ensures Tagged(m) && m != s.start && m != s.end && !Contains(s.prompt, m) ==> !Contains(TextFor(j, spot, s), m)
  {
    var pre, post := TextParts(j, spot, s);
    BlockEncoded(s);
    hide Contains, Encode, TextFor, Block, Written, SpotFits, Plain;
    ContainsAround(pre, Encode(Block(s)), post, s.start);
    if Tagged(m) && m != s.start && m != s.end && !Contains(s.prompt, m) {
      BlockClean(s, m);
      NoMarkerEncoded(Block(s), m);
      PlainHasNone(pre, m);
      PlainHasNone(post, m);
      EncodedFirst(s);
      CleanParts(pre, Encode(Block(s)), post, m);
    }
  }

  lemma EncodedFirst(s: Stage)
    requires Fenced(s)
    ensures Encode(Block(s)) != "" && Encode(Block(s))[0] == '['
  {
    EncodeStep(Block(s));
    hide Encode;
  }

  lemma CleanParts(a: string, b: string, c: string, m: string)
    requires IsMarker(m) && !Contains(a, m) && !Contains(b, m) && !Contains(c, m)
    requires (b == "" || !Inner(b[0])) && (c == "" || !Inner(c[0]))
    ensures !Contains(a + b + c, m)
  {
    hide Contains, IsMarker;
    if Contains(a + b + c, m) {
      OnOneSide(a + b, c, m);
      OnOneSide(a, b, m);
    }
  }

  lemma BlockClean(s: Stage, m: string)
    requires Fenced(s) && IsMarker(m) && m != s.start && m != s.end && !Contains(s.prompt, m)
    ensures !Contains(Block(s), m)
  {
    var nl := "\n";
    NoMarkerIn(nl, m);
    OtherMarker(s.start, m);
    OtherMarker(s.end, m);
    assert Block(s) == s.start + nl + s.prompt + nl + s.end;
    hide Contains, Block, IsMarker;
    CutClean(s.start, nl, m);
    CutClean(s.start + nl, s.prompt, m);
    CutClean(s.start + nl + s.prompt, nl, m);
    CutClean(s.start + nl + s.prompt + nl, s.end, m);
  }

  lemma NoMarkerIn(nl: string, m: string)
    requires IsMarker(m) && |nl| < 3
    ensures !Contains(nl, m)
  {
  }

  lemma OtherMarker(s: string, m: string)
    requires IsMarker(s) && IsMarker(m) && s != m
    ensures !Contains(s, m)
  {
    if Contains(s, m) { MarkerInMarker(s, m); }
  }

  lemma CutClean(a: string, b: string, m: string)
    requires IsMarker(m) && !Contains(a, m) && !Contains(b, m) && Cuttable(a, b)
    ensures !Contains(a + b, m)
  {
    if Contains(a + b, m) { OnOneSide(a, b, m); }
  }

  /** A stage keeps every marker of the body, brings its own, and brings no other. */
  lemma StageMarkers(d: Doc, to: Target, s: Stage, m: string)
    requires WfDoc(d) && Ready(to, d.root) && Fenced(s) && Tagged(m)
    ensures var body, next := PrintDoc(d), PrintDoc(StageDoc(d, to, s));
            && Contains(next, s.start)
            && (Contains(body, m) ==> Contains(next, m))
            && (m != s.start && m != s.end && !Contains(s.prompt, m) && Contains(next, m) ==> Contains(body, m))
  {
    hide Ready, StageDoc, PrintDoc, WfDoc, StageAt, TextFor, Contains, Fenced, Written, SpotFits, SpotAt, Cuttable;
    var spot := SpotAt(to, d.root, s.first);
    StageInserts(d, to, s);
    StageGap(d, to, s);
    SpotWritten(to, d.root, s.first);
    TextMarkers(d.root, spot, s, m);
    var body, at, x := PrintDoc(d), StageAt(d, to, s), StageText(d, to, s);
    var l, r := body[..at], body[at..];
    assert body == l + r;
    ContainsAround(l, x, r, s.start);
    if Contains(body, m) { MarkerKept(l, x, r, m); }
    if Contains(l + x + r, m) { NoNewMarker(l, x, r, m); }
  }
}
