/** Where an instruction block goes: the instruction texts of a payload, or a place for a new one. */
module PromptSites {
  import opened Common
  import opened JsonText
  import opened JsonTree
  import opened JsonEdit
  import opened JsonQuery
  import opened JsonGrow
  import opened JsonBuild
  import opened Protocol

  /** The block goes into the string at path, or into the hole of a new item of the container at path. */
  datatype Spot = Fill(path: Path) | Add(path: Path, front: bool, elem: Elem, hole: Path)

  datatype Target = ChatTarget | ResponsesTarget | ClaudeTarget | GeminiTarget | AntigravityTarget

  function TargetOf(to: string): Option<Target> {
    if to == "openai" then Some(ChatTarget)
    else if to == "openai-response" || to == "codex" then Some(ResponsesTarget)
    else if to == "claude" then Some(ClaudeTarget)
    else if to == "gemini" then Some(GeminiTarget)
    else if to == "antigravity" then Some(AntigravityTarget)
    else None
  }

  const ROOT: Path := []
  const SYSTEM_HOLE: Path := [0, 0, 0]

  /** The hole of the k-th item of what is at p. */
  function Inside(p: Path, k: nat, hole: Path): Path { p + [k] + hole }

  /** A text part around its text; kind "" is the part without a type. */
  function TextPart(kind: string, text: Json): Json {
    if kind == "" then Obj([Field("text", text)], "")
    else Obj([Field("type", Str(Encode(kind))), Field("text", text)], "")
  }

  function TextHole(kind: string): Path { if kind == "" then [0] else [1] }

  function MessagePart(text: Json): Json { Obj([Field("role", Str(Encode("system"))), Field("content", text)], "") }

  function GeminiSystem(text: Json): Json { Obj([Field("parts", Arr([Item(TextPart("", text))], ""))], "") }

  function GeminiKey(j: Json): string {
    if Has(j, "systemInstruction") then "systemInstruction" else "system_instruction"
  }

  /** A request member that has a member of this name. */
  predicate Holds(e: Elem, key: string) { NameIs(e, "request") && Has(e.value, key) }

  /**
   The first of them, or the number of items: where the path of both names leads, since a lookup
   goes on to the next request member when the name is not in this one.
   */
  function FindHolder(es: seq<Elem>, key: string): (k: nat)
    ensures k <= |es| && (k < |es| ==> Holds(es[k], key))
    ensures forall i | 0 <= i < k :: !Holds(es[i], key)
  {
    if es == [] then 0 else if Holds(es[0], key) then 0 else 1 + FindHolder(es[1..], key)
  }

  function HolderAt(j: Json, key: string): nat { if j.Obj? then FindHolder(j.items, key) else 0 }

  predicate Held(j: Json, key: string) { j.Obj? && HolderAt(j, key) < |j.items| }

  function Holder(j: Json, key: string): Json
    requires Held(j, key)
  {
    j.items[HolderAt(j, key)].value
  }

  /** The name under which a request has its system instruction, if it has one. */
  function RequestKey(j: Json): string {
    if Held(j, "systemInstruction") then "systemInstruction" else "system_instruction"
  }

  function GeminiWalk(key: string): Walk { One(Member(key, One(Member("parts", EachOf(TextBlock("")))))) }

  function PartKind(to: Target): string {
    match to
    case ChatTarget => "text"
    case ClaudeTarget => "text"
    case ResponsesTarget => "input_text"
    case _ => ""
  }

  /** Where the instruction texts are, apart from the instructions field of the Responses format. */
  function MainWalk(to: Target, j: Json): Walk {
    match to
    case ChatTarget => One(Member("messages", EachOf(Instruction("text"))))
    case ResponsesTarget => One(Member("input", EachOf(Instruction("input_text"))))
    case ClaudeTarget => One(Member("system", TextOrEach(PROMPT, TextBlock("text"))))
    case GeminiTarget => GeminiWalk(GeminiKey(j))
    case AntigravityTarget => ItemAt(HolderAt(j, RequestKey(j)), GeminiWalk(RequestKey(j)))
  }

  const LEAD_WALK: Walk := One(Member("instructions", Text(PROMPT)))

  function Lead(to: Target, j: Json): seq<Protocol.Slot> { if to.ResponsesTarget? then Slots(LEAD_WALK, j) else [] }

  /** The instruction texts, in the order in which the source lists them. */
  function Texts(to: Target, j: Json): seq<Protocol.Slot> { Lead(to, j) + Slots(MainWalk(to, j), j) }

  function LiftPaths(k: nat, ps: seq<Path>): (r: seq<Path>)
    ensures |r| == |ps|
  {
    seq(|ps|, i requires 0 <= i < |ps| => [k] + ps[i])
  }

  /** The arrays of instruction blocks. */
  function Arrays(w: Walk, j: Json): seq<Path>
    decreases j, if w.TextOrEach? then 1 else 0
  {
    match w
    case Text(_) => []
    case TextOrEach(_, n) => Arrays(EachOf(n), j)
    case EachOf(n) => if !j.Arr? then [] else if n.TextBlock? then [[]] else EachArrays(n, j.items, |j.items|)
    case ItemAt(k, next) => if j.Obj? && k < |j.items| then LiftPaths(k, Arrays(next, j.items[k].value)) else []
    case One(n) =>
      match Choose(n, j)
      case None => []
      case Some((key, next)) => if Has(j, key) then LiftPaths(Find(j.items, key), Arrays(next, Get(j, key))) else []
  }

  function EachArrays(n: Node, es: seq<Elem>, c: nat): seq<Path>
    requires c <= |es|
    decreases es, c
  {
    if c == 0 then [] else EachArrays(n, es, c - 1) + LiftPaths(c - 1, Arrays(One(n), es[c - 1].value))
  }

  /** The new item when there is neither a text nor an array. */
  function Fallback(to: Target, j: Json): Option<Spot> {
    match to
    case ChatTarget =>
      if Has(j, "messages") && Get(j, "messages").Arr?
      then Some(Add([Find(j.items, "messages")], true, Item(MessagePart(BLANK)), [1])) else None
    case ResponsesTarget => NewField(j, [], "instructions", BLANK, [])
    case ClaudeTarget => NewField(j, [], "system", BLANK, [])
    case GeminiTarget => NewGemini(j, [])
    case AntigravityTarget =>
      if !Has(j, "request") || Held(j, RequestKey(j)) then None
      else NewField(Get(j, "request"), [Find(j.items, "request")], "systemInstruction", GeminiSystem(BLANK),
                    SYSTEM_HOLE)
  }

  function NewField(j: Json, path: Path, key: string, value: Json, hole: Path): Option<Spot> {
    if j.Obj? then Some(Add(path, false, Field(key, value), hole)) else None
  }

  function NewGemini(j: Json, path: Path): Option<Spot> {
    if Has(j, GeminiKey(j)) then None else NewField(j, path, "systemInstruction", GeminiSystem(BLANK), SYSTEM_HOLE)
  }

  function Select<T>(s: seq<T>, first: bool): T
    requires s != []
  {
    if first then s[0] else s[|s| - 1]
  }

  function SpotOf(to: Target, j: Json, first: bool): Option<Spot> {
    if Texts(to, j) != [] then Some(Fill(Select(Texts(to, j), first).path))
    else
      var arrays := Arrays(MainWalk(to, j), j);
      if arrays != [] then
        Some(Add(Select(arrays, first), false, Item(TextPart(PartKind(to), BLANK)), TextHole(PartKind(to))))
      else Fallback(to, j)
  }

  /* ---------- shapes that are supported ---------- */

  predicate ListOf(j: Json, key: string, item: Json -> bool) {
    && Has(j, key) && Get(j, key).Arr? && Get(j, key).items != []
    && forall i | 0 <= i < |Get(j, key).items| :: Get(j, key).items[i].value.Obj? && item(Get(j, key).items[i].value)
  }

  predicate ChatOk(m: Json) {
    var r := TextAt(m, "role");
    r == "system" || r == "developer" || r == "user" || r == "assistant" || r == "tool" || r == "function"
  }

  predicate ResponsesOk(m: Json) {
    var t, r := TextAt(m, "type"), TextAt(m, "role");
    (t != "" && t != "message")
    || ((r == "system" || r == "developer" || r == "user" || r == "assistant") && Has(m, "content"))
  }

  predicate ClaudeOk(m: Json) {
    Has(m, "content") && (TextAt(m, "role") == "user" || TextAt(m, "role") == "assistant")
  }

  predicate GeminiOk(m: Json) {
    Has(m, "parts") && Get(m, "parts").Arr? && (TextAt(m, "role") == "user" || TextAt(m, "role") == "model")
  }

  /** The system instruction under this name has parts. */
  predicate SystemOk(j: Json, key: string)
    requires Has(j, key)
  {
    var s := Get(j, key); s.Obj? && Has(s, "parts") && Get(s, "parts").Arr?
  }

  predicate GeminiShape(j: Json) {
    && ListOf(j, "contents", GeminiOk)
    && !(Has(j, "systemInstruction") && Has(j, "system_instruction"))
    && (Has(j, GeminiKey(j)) ==> SystemOk(j, GeminiKey(j)))
  }

  predicate RequestShape(j: Json) {
    && Has(j, "request") && Get(j, "request").Obj?
    && Held(j, "contents") && ListOf(Holder(j, "contents"), "contents", GeminiOk)
    && !(Held(j, "systemInstruction") && Held(j, "system_instruction"))
    && (Held(j, RequestKey(j)) ==> SystemOk(Holder(j, RequestKey(j)), RequestKey(j)))
  }

  /**
   The first of several request members is empty and none has a system instruction: the field would
   go into it after a comma, which is no JSON.
   */
  predicate EmptyRequest(to: Target, j: Json) {
    to.AntigravityTarget? && Has(j, "request") && Items(Get(j, "request")) == [] && !Held(j, RequestKey(j))
  }

  /** The shapes that take a block, but for that one. */
  predicate Supported(to: Target, j: Json) { SupportedShape(to, j) && !EmptyRequest(to, j) }

  predicate SupportedShape(to: Target, j: Json) {
    j.Obj? &&
    match to
    case ChatTarget => ListOf(j, "messages", ChatOk)
    case ResponsesTarget => ListOf(j, "input", ResponsesOk) && (Has(j, "instructions") ==> Get(j, "instructions").Str?)
    case ClaudeTarget =>
      ListOf(j, "messages", ClaudeOk) && (Has(j, "system") ==> Get(j, "system").Str? || Get(j, "system").Arr?)
    case GeminiTarget => GeminiShape(j)
    case AntigravityTarget => RequestShape(j)
  }

  /** The tree with raw put in at a spot. */
  predicate SpotFits(j: Json, s: Spot) {
    HasPath(j, s.path) &&
    match s
    case Fill(p) => At(j, p).Str?
    case Add(p, _, e, hole) =>
      && (At(j, p).Arr? || (At(j, p).Obj? && At(j, p).items != []))
      && WfElem(e, At(j, p).Obj?) && e.before == e.after == ""
      && HasPath(e.value, hole) && At(e.value, hole) == BLANK
  }

  function Filled(e: Elem, hole: Path, raw: string): Elem
    requires HasPath(e.value, hole)
  {
    e.(value := Put(e.value, hole, Str(raw)))
  }

  function Applied(j: Json, s: Spot, raw: string): Json
    requires SpotFits(j, s)
  {
    match s
    case Fill(p) => Put(j, p, Str(raw))
    case Add(p, front, e, hole) => Put(j, p, Added(At(j, p), front, Filled(e, hole, raw)))
  }

  /** Where the literal of a spot is once it is there. */
  function NewPath(j: Json, s: Spot): Path
    requires SpotFits(j, s)
  {
    match s
    case Fill(p) => p
    case Add(p, front, _, hole) => Inside(p, if front then 0 else |At(j, p).items|, hole)
  }
}
