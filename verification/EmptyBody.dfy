/** A short valid request that no prompt can be put into: its first request member is empty. */
module EmptyBodies {
  import opened Common
  import opened JsonText
  import opened JsonTree
  import opened JsonQuery
  import opened JsonGrow
  import opened JsonBuild
  import opened Markers
  import opened Payloads
  import opened PromptSites
  import opened Prompts
  import opened PromptMarkers
  import opened PromptEmpty
  import opened PromptLaws
  import opened ProviderShapes
  import Utf8

  const NOTHING: Json := Obj([], "")
  const NO_PARTS: Json := Arr([], "")
  const USER: Json := Obj([Field("role", Str(Encode("user"))), Field("parts", NO_PARTS)], "")
  const CONTENTS: Json := Arr([Item(USER)], "")
  const SECOND: Json := Obj([Field("contents", CONTENTS)], "")
  const ROOT_OBJECT: Json := Obj([Field("request", NOTHING), Field("request", SECOND)], "")

  /** {"request":{},"request":{"contents":[{"role":"user","parts":[]}]}} */
  const BODY: Doc := Doc("", ROOT_OBJECT, "")

  /* ---------- it is a supported request whose first request member is empty ---------- */

  lemma BodyWf()
    ensures WfDoc(BODY)
  {
    hide Encode, Wf, WfElem, Field, Item;
    ObjWf([]);
    ArrWf([]);
    StrWf("user");
    TwoFields("role", Str(Encode("user")), "parts", NO_PARTS);
    ItemWf(USER);
    ArrWf([Item(USER)]);
    OneField("contents", CONTENTS);
    TwoFields("request", NOTHING, "request", SECOND);
  }

  lemma OnlyField(name: string, v: Json, key: string)
    ensures var j := Obj([Field(name, v)], ""); Has(j, key) <==> name == key
    ensures var j := Obj([Field(name, v)], ""); name == key ==> Get(j, key) == v
  {
    hide Field, NameIs;
    FieldName(name, v, key);
    FieldValue(name, v);
    if name == key { FindField([Field(name, v)], key, 0); }
  }

  lemma BothFields(a: string, v: Json, b: string, w: Json)
    requires a != b
    ensures var j := Obj([Field(a, v), Field(b, w)], ""); Has(j, a) && Has(j, b) && Get(j, a) == v && Get(j, b) == w
  {
    hide Field, NameIs;
    FieldName(a, v, a);
    FieldName(a, v, b);
    FieldName(b, w, b);
    FieldValue(a, v);
    FieldValue(b, w);
    FindField([Field(a, v), Field(b, w)], a, 0);
    FindField([Field(a, v), Field(b, w)], b, 1);
  }

  lemma NamesDiffer()
    ensures "role" != "parts" && "contents" != "systemInstruction" && "contents" != "system_instruction"
  {
    assert |"role"| == 4 && |"parts"| == 5;
    assert |"contents"| == 8 && |"systemInstruction"| == 17 && |"system_instruction"| == 18;
  }

  lemma OkFrom(m: Json, role: string)
    requires Has(m, "role") && Get(m, "role") == Str(Encode(role)) && role == "user"
    requires Has(m, "parts") && Get(m, "parts") == NO_PARTS
    ensures GeminiOk(m)
  {
    DecodeEncode(role);
    hide Has, Get, Encode, Decode;
  }

  lemma UserOk()
    ensures USER.Obj? && GeminiOk(USER)
  {
    hide Has, Get, Find, NameIs, Field, Encode, GeminiOk, NO_PARTS;
    NamesDiffer();
    BothFields("role", Str(Encode("user")), "parts", NO_PARTS);
    OkFrom(USER, "user");
  }

  lemma SecondOk()
    ensures ListOf(SECOND, "contents", GeminiOk)
    ensures !Has(SECOND, "systemInstruction") && !Has(SECOND, "system_instruction")
  {
    hide Has, Get, Find, NameIs, Field, GeminiOk, ListOf, USER;
    NamesDiffer();
    UserOk();
    OnlyField("contents", CONTENTS, "contents");
    OnlyField("contents", CONTENTS, "systemInstruction");
    OnlyField("contents", CONTENTS, "system_instruction");
    ListIs(SECOND, "contents", USER, GeminiOk);
  }

  lemma ListIs(j: Json, key: string, v: Json, item: Json -> bool)
    requires Has(j, key) && Get(j, key) == Arr([Item(v)], "") && v.Obj? && item(v)
    ensures ListOf(j, key, item)
  {
    hide Has, Get;
  }

  lemma BodyMembers(key: string)
    ensures NameIs(ROOT_OBJECT.items[0], "request") && NameIs(ROOT_OBJECT.items[1], "request")
    ensures ROOT_OBJECT.items[0].value == NOTHING && ROOT_OBJECT.items[1].value == SECOND
    ensures !Has(NOTHING, key)
  {
    hide Field, NameIs, SECOND;
    FieldName("request", NOTHING, "request");
    FieldName("request", SECOND, "request");
    FieldValue("request", NOTHING);
    FieldValue("request", SECOND);
  }

  lemma BodyHolds(key: string)
    ensures HolderAt(ROOT_OBJECT, key) == if Has(SECOND, key) then 1 else 2
    ensures Has(ROOT_OBJECT, "request") && Get(ROOT_OBJECT, "request") == NOTHING
    ensures |ROOT_OBJECT.items| == 2 && ROOT_OBJECT.items[1].value == SECOND
  {
    BodyMembers(key);
    hide Field, NameIs, SECOND, NOTHING;
    FindField(ROOT_OBJECT.items, "request", 0);
    var rest := ROOT_OBJECT.items[1..];
    assert rest[0] == ROOT_OBJECT.items[1] && rest[1..] == [];
    assert FindHolder(rest, key) == if Has(SECOND, key) then 0 else 1;
  }

  lemma BodyShape()
    ensures SupportedShape(AntigravityTarget, ROOT_OBJECT) && TreeShape(AntigravityTarget, ROOT_OBJECT)
    ensures EmptyRequest(AntigravityTarget, ROOT_OBJECT)
  {
    SecondOk();
    BodyHolds("contents");
    BodyHolds("systemInstruction");
    BodyHolds("system_instruction");
    hide Has, Get, HolderAt, GeminiOk, Field;
    hide SECOND;
  }

  /* ---------- its text is short and has no marker ---------- */

  predicate Short(s: string, n: nat) { Plain(s) && |s| <= n }

  lemma {:induction false} EncodedShort(s: string)
    ensures |Encode(s)| <= 6 * |s|
  {
    if s != "" {
      EncodedShort(s[1..]);
      CharShort(s[0]);
      hide Encode, EncodeChar;
      EncodeStep(s);
    }
  }

  lemma CharShort(c: char)
    ensures |EncodeChar(c)| <= 6
  {
  }

  lemma {:induction false} FewBytes(s: string)
    ensures |Utf8.Encoded(s)| <= 4 * |s|
  {
    if s != "" { FewBytes(s[1..]); }
  }

  lemma ShortText(text: string)
    requires Plain(text)
    ensures Short(Print(Str(Encode(text))), 6 * |text| + 2)
  {
    EncodedShort(text);
    PlainStr(text);
    hide Encode, Plain;
  }

  lemma ShortField(name: string, v: Json, n: nat)
    requires Plain(name) && Short(Print(v), n)
    ensures Short(PrintElem(Field(name, v)), 6 * |name| + 3 + n)
  {
    EncodedShort(name);
    PlainField(name, v);
    hide Encode, Plain, Print;
  }

  lemma ShortItem(v: Json, n: nat)
    requires Short(Print(v), n)
    ensures Short(PrintElem(Item(v)), n)
  {
    PlainItem(v);
    hide Plain, Print;
  }

  lemma ShortOne(e: Elem, named: bool, n: nat)
    requires Short(PrintElem(e), n)
    ensures Short(Print(if named then Obj([e], "") else Arr([e], "")), n + 2)
  {
    PlainOne(e, named);
    hide PrintElem, Plain;
    PrintOne(e);
    PrintBody(if named then Obj([e], "") else Arr([e], ""));
  }

  lemma ShortTwo(a: Elem, b: Elem, n: nat, m: nat)
    requires Short(PrintElem(a), n) && Short(PrintElem(b), m)
    ensures Short(Print(Obj([a, b], "")), n + m + 3)
  {
    PlainTwo(a, b);
    hide PrintElem, Plain;
    PrintOne(a);
    ItemsAdded([a], b);
    assert [a] + [b] == [a, b];
    PrintBody(Obj([a, b], ""));
  }

  lemma ShortNone()
    ensures Short(Print(NOTHING), 2) && Short(Print(NO_PARTS), 2)
  {
  }

  lemma PlainKeys()
    ensures Plain("role") && Plain("user") && Plain("parts") && Plain("contents") && Plain("request")
  {
  }

  lemma BodyShort()
    ensures Short(PrintDoc(BODY), 300)
  {
    PlainKeys();
    ShortNone();
    hide Plain, Encode, Print, PrintElem, Field, Item, Short;
    ShortText("user");
    ShortField("role", Str(Encode("user")), 26);
    ShortField("parts", NO_PARTS, 2);
    ShortTwo(Field("role", Str(Encode("user"))), Field("parts", NO_PARTS), 53, 35);
    ShortItem(USER, 91);
    ShortOne(Item(USER), false, 91);
    ShortField("contents", CONTENTS, 93);
    ShortOne(Field("contents", CONTENTS), true, 144);
    ShortField("request", NOTHING, 2);
    ShortField("request", SECOND, 146);
    ShortTwo(Field("request", NOTHING), Field("request", SECOND), 47, 191);
    Longer(Print(ROOT_OBJECT), 241, 300);
    assert PrintDoc(BODY) == Print(ROOT_OBJECT);
  }

  lemma Longer(s: string, n: nat, m: nat)
    requires Short(s, n) && n <= m
    ensures Short(s, m)
  {
  }

  /* ---------- so no prompt can be put into it ---------- */

  lemma EmptyBodyValid(route: Route)
    requires route.to == "antigravity" && route.Eligible()
    ensures var body := PrintDoc(BODY);
            && Parse(body) == Some(BODY) && ProviderShape(body, route) && Utf8.Length(body) <= 1200
            && Injectable(body, route)
  {
    BodyWf();
    BodyShape();
    BodyShort();
    FewBytes(PrintDoc(BODY));
    ParsePrint(BODY);
    AntigravityRoute(route);
    FirstChar(ROOT_OBJECT);
    BodyThere();
    hide PrintDoc, SupportedShape, TreeShape, Plain, Utf8.Encoded, Print, Wf, ROOT_OBJECT;
  }

  lemma BodyThere()
    ensures PrintDoc(BODY) == Print(ROOT_OBJECT)
  {
    hide Print, ROOT_OBJECT;
  }

  lemma EmptyBodyMeets(s: Stage)
    requires !Contains(PrintDoc(BODY), s.start) && !Contains(PrintDoc(BODY), s.end)
    ensures Broken(PrintDoc(BODY), AntigravityTarget, s)
  {
    hide PrintDoc, WfDoc, EmptyRequest, Contains, ROOT_OBJECT;
    BodyWf();
    BodyShape();
    ParsePrint(BODY);
  }

  /** It is valid and short, and whatever prompt either stage writes, the result is no JSON. */
  lemma EmptyBodyBreaks(route: Route, prompt: string)
    requires route.to == "antigravity" && route.Eligible()
    ensures var body := PrintDoc(BODY);
            && ProviderShape(body, route) && Utf8.Length(body) <= 1200
            && InjectBreaks(body, route, Some(prompt), None) && InjectBreaks(body, route, None, Some(prompt))
            && Parse(Inject(body, route, Some(prompt), None)).None?
            && Parse(Inject(body, route, None, Some(prompt))).None?
  {
    hide PrintDoc, WfDoc, Injectable, ProviderShape, Plain, Contains, Inject, Broken, Utf8.Length, TargetOf, Short;
    var body := PrintDoc(BODY);
    EmptyBodyValid(route);
    AntigravityRoute(route);
    BodyPlain();
    NoMarkers(body);
    EmptyBodyMeets(CavemanStage(prompt));
    EmptyBodyMeets(PonytailStage(prompt));
    InjectKeepsJson(body, route, Some(prompt), None);
    InjectKeepsJson(body, route, None, Some(prompt));
  }

  lemma BodyPlain()
    ensures Plain(PrintDoc(BODY))
  {
    hide PrintDoc, Plain;
    BodyShort();
  }

  lemma NoMarkers(s: string)
    requires Plain(s)
    ensures !Contains(s, CAVEMAN_START) && !Contains(s, CAVEMAN_END)
    ensures !Contains(s, PONYTAIL_START) && !Contains(s, PONYTAIL_END)
  {
    StagesFenced("", "");
    hide Plain, Contains, Tagged, Fenced;
    PlainHasNone(s, CAVEMAN_START);
    PlainHasNone(s, CAVEMAN_END);
    PlainHasNone(s, PONYTAIL_START);
    PlainHasNone(s, PONYTAIL_END);
  }

  lemma AntigravityRoute(route: Route)
    requires route.to == "antigravity"
    ensures TargetOf(route.to) == Some(AntigravityTarget)
  {
    var a, b, c, d, e := "openai", "openai-response", "codex", "claude", "gemini";
    assert |"antigravity"| == 11 && |a| == 6 && |b| == 15 && |c| == 5 && |d| == 6 && |e| == 6;
  }
}
