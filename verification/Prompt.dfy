/** Injecting instruction blocks: each stage is one insertion into the body. */
module Prompts {
  import opened Common
  import opened JsonText
  import opened JsonTree
  import opened JsonEdit
  import opened JsonQuery
  import opened JsonGrow
  import opened JsonBuild
  import opened Markers
  import opened Payloads
  import opened PromptSites
  import opened PromptSitesProofs
  import opened PromptSpots

  datatype Stage = Stage(start: string, end: string, prompt: string, insertBefore: Option<string>, first: bool)

  function CavemanStage(prompt: string): Stage { Stage(CAVEMAN_START, CAVEMAN_END, prompt, Some(PONYTAIL_START), true) }
  function PonytailStage(prompt: string): Stage { Stage(PONYTAIL_START, PONYTAIL_END, prompt, None, false) }

  predicate Fenced(s: Stage) {
    IsMarker(s.start) && IsMarker(s.end) && (s.insertBefore.Some? ==> IsMarker(s.insertBefore.value))
  }

  function Block(s: Stage): string { s.start + "\n" + s.prompt + "\n" + s.end }

  /* ---------- into a string ---------- */

  function MarkerAt(raw: string, s: Stage): Option<nat> {
    if s.insertBefore.None? then None else IndexOf(raw, s.insertBefore.value)
  }

  function Cut(raw: string, s: Stage): (k: nat)
    ensures k <= |raw|
  {
    if MarkerAt(raw, s).Some? then MarkerAt(raw, s).value else |raw|
  }

  function Insertion(raw: string, s: Stage): string {
    if MarkerAt(raw, s).Some? then Block(s) + "\n\n"
    else if Decode(raw) != "" then "\n\n" + Block(s)
    else Block(s)
  }

  function FilledRaw(raw: string, s: Stage): string { Insert(raw, Cut(raw, s), Encode(Insertion(raw, s))) }

  /* ---------- into a document ---------- */

  function RawFor(j: Json, spot: Spot, s: Stage): string
    requires SpotFits(j, spot)
  {
    if spot.Fill? then FilledRaw(At(j, spot.path).raw, s) else Encode(Block(s))
  }

  /** What is inserted, and where in the printed value at the spot's path. */
  function TextFor(j: Json, spot: Spot, s: Stage): string
    requires SpotFits(j, spot)
  {
    match spot
    case Fill(p) => Encode(Insertion(At(j, p).raw, s))
    case Add(p, front, e, hole) => AddText(At(j, p), front, Filled(e, hole, Encode(Block(s))))
  }

  function OffsetFor(j: Json, spot: Spot, s: Stage): int
    requires SpotFits(j, spot)
  {
    match spot
    case Fill(p) => 1 + Cut(At(j, p).raw, s)
    case Add(p, front, _, _) => AddAt(At(j, p), front)
  }

  /** A stage has a place: a text, or by its shape a new one. */
  predicate Ready(to: Target, j: Json) { Texts(to, j) != [] || Supported(to, j) }

  lemma ReadySpot(to: Target, j: Json, first: bool)
    requires Ready(to, j)
    ensures SpotOf(to, j, first).Some? && SpotFits(j, SpotOf(to, j, first).value)
  {
    if Texts(to, j) == [] {
      NewSpot(to, j, first, "");
    } else {
      TextsApart(to, j);
      hide Texts, HasPath, At;
    }
  }

  function SpotAt(to: Target, j: Json, first: bool): (spot: Spot)
    requires Ready(to, j)
    ensures SpotFits(j, spot)
  {
    ReadySpot(to, j, first);
    SpotOf(to, j, first).value
  }

  function StageRoot(j: Json, to: Target, s: Stage): Json
    requires Ready(to, j)
  {
    var spot := SpotAt(to, j, s.first);
    Applied(j, spot, RawFor(j, spot, s))
  }

  function StageDoc(d: Doc, to: Target, s: Stage): Doc
    requires Ready(to, d.root)
  {
    d.(root := StageRoot(d.root, to, s))
  }

  /** Where in the body a stage inserts, and what. */
  function StageAt(d: Doc, to: Target, s: Stage): int
    requires Ready(to, d.root)
  {
    var spot := SpotAt(to, d.root, s.first);
    |d.lead| + |Left(d.root, spot.path)| + OffsetFor(d.root, spot, s)
  }

  function StageText(d: Doc, to: Target, s: Stage): string
    requires Ready(to, d.root)
  {
    TextFor(d.root, SpotAt(to, d.root, s.first), s)
  }

  /* ---------- into a body ---------- */

  /**
   What is appended to an empty first request member: a field, after the comma that every appended
   field gets. It has no place in the tree, since the result is no JSON.
   */
  function EmptyText(j: Json, s: Stage): string
    requires Has(j, "request")
  {
    AddText(Get(j, "request"), false, Field("systemInstruction", GeminiSystem(Str(Encode(Block(s))))))
  }

  function EmptyAt(d: Doc): int
    requires Has(d.root, "request") && Get(d.root, "request").Obj?
  {
    FindPath(d.root);
    |d.lead| + |Left(d.root, [Find(d.root.items, "request")])| + AddAt(Get(d.root, "request"), false)
  }

  lemma FindPath(j: Json)
    requires Has(j, "request")
    ensures HasPath(j, [Find(j.items, "request")])
  {
    MemberAt(j, Find(j.items, "request"));
  }

  ghost function InjectStage(body: string, to: Target, s: Stage): string {
    if Contains(body, s.start) || Contains(body, s.end) || Parse(body).None? then body
    else
      var d := Parse(body).value;
      if Ready(to, d.root) then
        if 0 <= StageAt(d, to, s) <= |body| then Insert(body, StageAt(d, to, s), StageText(d, to, s)) else body
      else if SupportedShape(to, d.root) && EmptyRequest(to, d.root) then
        if 0 <= EmptyAt(d) <= |body| then Insert(body, EmptyAt(d), EmptyText(d.root, s)) else body
      else body
  }

  /** prompts: the texts of the chosen levels; None for a level that is off or unknown. */
  ghost predicate Injectable(body: string, route: Route) {
    && route.Eligible() && Parse(body).Some? && TargetOf(route.to).Some?
    && SupportedShape(TargetOf(route.to).value, Parse(body).value.root)
  }

  ghost function Inject(body: string, route: Route, caveman: Option<string>, ponytail: Option<string>): string {
    if !Injectable(body, route) then body
    else
      var to := TargetOf(route.to).value;
      var first := if caveman.Some? then InjectStage(body, to, CavemanStage(caveman.value)) else body;
      if ponytail.Some? then InjectStage(first, to, PonytailStage(ponytail.value)) else first
  }
}
