/** Laws of whole injections: repeating changes nothing, and when the two stages commute. */
module PromptLaws {
  import opened Common
  import opened JsonText
  import opened JsonTree
  import opened JsonEdit
  import opened JsonSlots
  import opened Markers
  import opened Payloads
  import opened PromptSites
  import opened PromptSitesProofs
  import opened Prompts
  import opened PromptInsertion
  import opened PromptEmpty
  import opened PromptMarkers

  /* ---------- the texts after a stage ---------- */

  function ChosenText(to: Target, j: Json, s: Stage): (k: nat)
    requires Texts(to, j) != []
    ensures k < |Texts(to, j)|
  {
    if s.first then 0 else |Texts(to, j)| - 1
  }

  /** With instruction texts present, a stage rewrites the first or the last and leaves the others. */
  lemma FilledTexts(to: Target, j: Json, s: Stage)
    requires Texts(to, j) != []
    ensures var ts, k := Texts(to, j), ChosenText(to, j, s);
            && Ready(to, j) && HasPath(j, ts[k].path) && At(j, ts[k].path).Str?
            && StageRoot(j, to, s) == Put(j, ts[k].path, Str(FilledRaw(At(j, ts[k].path).raw, s)))
            && Texts(to, StageRoot(j, to, s)) == Retext(ts, k, FilledRaw(At(j, ts[k].path).raw, s))
  {
    var k := ChosenText(to, j, s);
    hide Texts, Supported, HasPath, At, FilledRaw, Put, Retext, SpotFits, SpotOf;
    TextsApart(to, j);
    FillSpot(to, j, s);
    TextsFilled(to, j, k, FilledRaw(At(j, Texts(to, j)[k].path).raw, s));
  }

  lemma FillSpot(to: Target, j: Json, s: Stage)
    requires Texts(to, j) != []
    ensures SpotAt(to, j, s.first) == Fill(Texts(to, j)[ChosenText(to, j, s)].path)
  {
    hide Texts, SpotFits, Supported;
  }

  lemma StageReady(to: Target, j: Json, s: Stage)
    requires Ready(to, j)
    ensures Texts(to, StageRoot(j, to, s)) != []
  {
    hide Texts, Supported, HasPath, At, FilledRaw, Put, Decode, SpotFits, SpotAt, Applied, RawFor;
    if Texts(to, j) == [] { AddedTexts(to, j, s); } else { FilledTexts(to, j, s); }
  }

  /* ---------- idempotence ---------- */

  /** After a stage its marker is there, the body is still ready, and no marker is lost. */
  lemma StageDone(body: string, to: Target, s: Stage, m: string)
    requires Parse(body).Some? && Ready(to, Parse(body).value.root) && Fenced(s) && Tagged(m)
    ensures var next := InjectStage(body, to, s);
            && (Contains(next, s.start) || Contains(next, s.end))
            && Parse(next).Some? && Ready(to, Parse(next).value.root)
            && (Contains(body, m) ==> Contains(next, m))
  {
    var d := Parse(body).value;
    hide Ready, Contains, Fenced, Tagged, InjectStage, StageRoot, WfDoc, PrintDoc, Texts;
    StageOnBody(d, to, s);
    if !(Contains(body, s.start) || Contains(body, s.end)) {
      StageMarkers(d, to, s, m);
      StageInserts(d, to, s);
      ParsePrint(StageDoc(d, to, s));
      StageReady(to, d.root, s);
      TextsReady(to, StageRoot(d.root, to, s));
    }
  }

  lemma TextsReady(to: Target, j: Json)
    requires Texts(to, j) != []
    ensures Ready(to, j)
  {
    hide Texts, Supported;
  }

  lemma StageSkipped(body: string, to: Target, s: Stage)
    requires Contains(body, s.start) || Contains(body, s.end)
    ensures InjectStage(body, to, s) == body
  {
    hide Contains, Ready;
  }

  lemma StagesFenced(c: string, p: string)
    ensures Fenced(CavemanStage(c)) && Fenced(PonytailStage(p))
    ensures Tagged(CAVEMAN_START) && Tagged(CAVEMAN_END) && Tagged(PONYTAIL_START) && Tagged(PONYTAIL_END)
    ensures CAVEMAN_START != PONYTAIL_START && CAVEMAN_START != PONYTAIL_END
    ensures CAVEMAN_END != PONYTAIL_START && CAVEMAN_END != PONYTAIL_END
  {
    FourMarkers();
    hide Bracketed;
  }

  /** One of the stages would write into an empty first request member. */
  ghost predicate InjectBreaks(body: string, route: Route, caveman: Option<string>, ponytail: Option<string>) {
    Injectable(body, route) &&
    var to := TargetOf(route.to).value;
    || (caveman.Some? && Broken(body, to, CavemanStage(caveman.value)))
    || (ponytail.Some? && Broken(body, to, PonytailStage(ponytail.value)))
  }

  /** With an empty first request member an injection breaks the body or leaves it alone. */
  lemma InjectEmpty(body: string, route: Route, caveman: Option<string>, ponytail: Option<string>)
    requires Injectable(body, route) && EmptyRequest(TargetOf(route.to).value, Parse(body).value.root)
    ensures var next := Inject(body, route, caveman, ponytail);
            if InjectBreaks(body, route, caveman, ponytail) then Parse(next).None? else next == body
  {
    var to := TargetOf(route.to).value;
    var c, p := if caveman.Some? then caveman.value else "", if ponytail.Some? then ponytail.value else "";
    StagesFenced(c, p);
    hide SupportedShape, EmptyRequest, InjectStage, Broken, Fenced, CavemanStage, PonytailStage;
    EmptyStage(body, to, CavemanStage(c));
    EmptyStage(body, to, PonytailStage(p));
    var first := if caveman.Some? then InjectStage(body, to, CavemanStage(c)) else body;
    if Parse(first).None? { StageIdle(first, to, PonytailStage(p)); }
  }

  lemma EmptyStage(body: string, to: Target, s: Stage)
    requires Parse(body).Some? && SupportedShape(to, Parse(body).value.root) && Fenced(s)
    requires EmptyRequest(to, Parse(body).value.root)
    ensures if Broken(body, to, s) then Parse(InjectStage(body, to, s)).None? else InjectStage(body, to, s) == body
  {
    hide SupportedShape, EmptyRequest, InjectStage, Contains, Fenced;
    StageKeepsJson(body, to, s);
    if !Broken(body, to, s) { StageIdle(body, to, s); }
  }

  /** With any other, it leaves a document in which the stages that ran have their markers. */
  lemma InjectDone(body: string, route: Route, caveman: Option<string>, ponytail: Option<string>)
    requires Injectable(body, route) && !EmptyRequest(TargetOf(route.to).value, Parse(body).value.root)
    ensures var next := Inject(body, route, caveman, ponytail);
            && Parse(next).Some?
            && (caveman.Some? ==> Contains(next, CAVEMAN_START) || Contains(next, CAVEMAN_END))
            && (ponytail.Some? ==> Contains(next, PONYTAIL_START) || Contains(next, PONYTAIL_END))
  {
    var to := TargetOf(route.to).value;
    var a, b := CavemanStage(if caveman.Some? then caveman.value else ""),
        PonytailStage(if ponytail.Some? then ponytail.value else "");
    StagesFenced(a.prompt, b.prompt);
    hide SupportedShape, EmptyRequest;
    SupportedReady(to, Parse(body).value.root);
    hide InjectStage, Contains, Ready, Fenced, Tagged;
    var first := if caveman.Some? then InjectStage(body, to, a) else body;
    if caveman.Some? { StageDone(body, to, a, a.start); }
    if ponytail.Some? {
      StageDone(first, to, b, a.start);
      StageDone(first, to, b, a.end);
    }
  }

  /** Injecting into a body that takes prompts keeps it JSON, but for that one case. */
  lemma InjectKeepsJson(body: string, route: Route, caveman: Option<string>, ponytail: Option<string>)
    requires Parse(body).Some?
    ensures Parse(Inject(body, route, caveman, ponytail)).Some? <==> !InjectBreaks(body, route, caveman, ponytail)
  {
    if Injectable(body, route) {
      hide Injectable, EmptyRequest, Inject, Contains;
      if EmptyRequest(TargetOf(route.to).value, Parse(body).value.root) {
        InjectEmpty(body, route, caveman, ponytail);
      } else {
        InjectDone(body, route, caveman, ponytail);
      }
    }
  }

  /** Injecting the same levels again changes nothing. */
  lemma InjectIdempotent(body: string, route: Route, caveman: Option<string>, ponytail: Option<string>)
    ensures var once := Inject(body, route, caveman, ponytail); Inject(once, route, caveman, ponytail) == once
  {
    var once := Inject(body, route, caveman, ponytail);
    if Injectable(body, route) && Injectable(once, route) {
      var to := TargetOf(route.to).value;
      hide SupportedShape, EmptyRequest, InjectStage, Contains;
      if EmptyRequest(to, Parse(body).value.root) {
        InjectEmpty(body, route, caveman, ponytail);
      } else {
        InjectDone(body, route, caveman, ponytail);
        if caveman.Some? { StageSkipped(once, to, CavemanStage(caveman.value)); }
        if ponytail.Some? { StageSkipped(once, to, PonytailStage(ponytail.value)); }
      }
    }
  }

  lemma SupportedReady(to: Target, j: Json)
    requires Supported(to, j)
    ensures Ready(to, j)
  {
    hide Texts, Supported;
  }
}
