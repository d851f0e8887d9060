/** The normalizer with the stages it ships with. */
module PipelineDefaults {
  import opened Common
  import opened JsonTree
  import opened JsonSlots
  import opened JsonEdit
  import opened JsonAlike
  import opened JsonQuery
  import opened Payloads
  import opened Markers
  import opened PromptSites
  import opened Prompts
  import opened PromptInsertion
  import opened PromptLaws
  import opened PromptShape
  import opened ProviderShapes
  import Metrics
  import Rtk
  import Utf8
  import opened Pipeline

  /** What a prompt injects into is at least a valid request, but for its size. */
  lemma InjectableIsValid(body: string, route: Route)
    requires Injectable(body, route) && Utf8.Length(body) <= BYTES_MAX && body != ""
    ensures ProviderShape(body, route)
  {
    var to, j := TargetOf(route.to).value, Parse(body).value.root;
    hide HolderAt;
    match to
    case ChatTarget =>
    case ResponsesTarget => Weaker(j, "input", ResponsesOk, ItemOk);
    case ClaudeTarget => Weaker(j, "messages", ClaudeOk, RoleOk);
    case GeminiTarget =>
    case AntigravityTarget =>
  }

  lemma Weaker(j: Json, key: string, p: Json -> bool, q: Json -> bool)
    requires ListOf(j, key, p) && forall m | p(m) :: q(m)
    ensures ListOf(j, key, q)
  {
    hide Has, Get;
  }

  ghost function DefaultRtk(route: Route, filter: string -> Option<string>): string -> Local {
    body => Output(Rtk.Apply(body, route, filter))
  }

  ghost function DefaultCaveman(route: Route, prompt: Option<string>): string -> Local {
    body => Output(Inject(body, route, prompt, None))
  }

  ghost function DefaultPonytail(route: Route, prompt: Option<string>): string -> Local {
    body => Output(Inject(body, route, None, prompt))
  }

  /** The checks of production, without test hooks. */
  ghost predicate Production(c: Checks, route: Route, caveman: Option<string>, ponytail: Option<string>) {
    && (forall b :: c.shape(b) == ProviderShape(b, route))
    && (forall b, a :: c.transition(b, a) == Rtk.ValidTransition(b, a, route))
    && (forall b :: c.caveman(b) == Inject(b, route, caveman, None))
    && (forall b :: c.ponytail(b) == Inject(b, route, None, ponytail))
    && (forall stage, b, a :: c.extra(stage, b, a))
    && (forall b :: c.final(b))
  }

  /* ---------- the shipped stages keep the shape of a request ---------- */

  /** All of a valid request but its size. */
  ghost predicate Shaped(body: string, route: Route) {
    && route.Eligible() && TargetOf(route.to).Some?
    && Parse(body).Some? && TreeShape(TargetOf(route.to).value, Parse(body).value.root)
  }

  lemma ShapedIsValid(body: string, route: Route)
    ensures ProviderShape(body, route) <==> Shaped(body, route) && Utf8.Length(body) <= BYTES_MAX
  {
    if Shaped(body, route) {
      hide Utf8.Length, TreeShape;
      FirstChar(Parse(body).value.root);
    }
  }

  lemma RtkKeepsShape(body: string, route: Route, filter: string -> Option<string>)
    requires Shaped(body, route)
    ensures Shaped(Rtk.Apply(body, route, filter), route)
  {
    if View(body, route).Some? {
      hide TreeShape, Like, Alike, Found, PutAll, PrintDoc, WfDoc, EditsTo, EditsFit, SlotsOf, Rewritten, SlotsFit;
      hide Rtk.Replacements, Rtk.CompressText;
      var to, d, p := TargetOf(route.to).value, Parse(body).value, View(body, route).value;
      ViewOfRewritten(body, route, map[]);
      var reps := Rtk.Replacements(p.slots, filter);
      var d' := RewrittenDoc(d, Found(route.to, d.root), reps);
      EditsAlike(route.to, d.root, reps);
      AlikeLike(d.root, d'.root, false, false);
      LikeShape(to, d.root, d'.root);
      ParsePrint(d');
    }
  }

  lemma StageKeepsShaped(body: string, route: Route, s: Stage)
    requires Shaped(body, route) && Fenced(s) && Ready(TargetOf(route.to).value, Parse(body).value.root)
    ensures Shaped(InjectStage(body, TargetOf(route.to).value, s), route)
    ensures Ready(TargetOf(route.to).value, Parse(InjectStage(body, TargetOf(route.to).value, s)).value.root)
  {
    hide TreeShape, PrintDoc, WfDoc, Ready, StageRoot, Fenced, Contains, InjectStage, StageAt, StageText;
    var to, d := TargetOf(route.to).value, Parse(body).value;
    StageOnBody(d, to, s);
    StageInserts(d, to, s);
    StageKeepsShape(to, d.root, s);
    StageReady(to, d.root, s);
    TextsReady(to, StageRoot(d.root, to, s));
    ParsePrint(StageDoc(d, to, s));
  }

  /** Injecting keeps the shape of a request if and only if it keeps it JSON. */
  lemma InjectKeepsShape(body: string, route: Route, caveman: Option<string>, ponytail: Option<string>)
    requires Shaped(body, route)
    ensures Shaped(Inject(body, route, caveman, ponytail), route) <==> !InjectBreaks(body, route, caveman, ponytail)
  {
    var to := TargetOf(route.to).value;
    if InjectBreaks(body, route, caveman, ponytail) {
      hide Injectable, InjectBreaks, Inject, TreeShape;
      InjectKeepsJson(body, route, caveman, ponytail);
    } else if Injectable(body, route) {
      hide Shaped, InjectBreaks, EmptyRequest, SupportedShape, Inject;
      if EmptyRequest(to, Parse(body).value.root) {
        InjectEmpty(body, route, caveman, ponytail);
      } else {
        SupportedReady(to, Parse(body).value.root);
        ReadyKeepsShape(body, route, caveman, ponytail);
      }
    }
  }

  lemma ReadyKeepsShape(body: string, route: Route, caveman: Option<string>, ponytail: Option<string>)
    requires Shaped(body, route) && Ready(TargetOf(route.to).value, Parse(body).value.root)
    ensures Shaped(Inject(body, route, caveman, ponytail), route)
  {
    if Injectable(body, route) {
      var to := TargetOf(route.to).value;
      hide Shaped, Ready, Injectable, InjectStage, Fenced;
      var c, p := if caveman.Some? then caveman.value else "", if ponytail.Some? then ponytail.value else "";
      StagesFenced(c, p);
      var first := body;
      if caveman.Some? {
        first := InjectStage(body, to, CavemanStage(c));
        StageKeepsShaped(body, route, CavemanStage(c));
      }
      if ponytail.Some? { StageKeepsShaped(first, route, PonytailStage(p)); }
    }
  }

  /* ---------- what they contribute ---------- */

  lemma Contributes(s: Setup, stage: Metrics.Stage, body: string, run: string -> Local, after: string, t: nat, ok: bool)
    requires Steady(s) && run(body) == Output(after) && Accepts(s.config.checks, stage, body, after) == ok
    ensures RunLocal(s, stage, true, body, run, t).after == if ok then after else body
  {
    hide Accepts;
  }

  /**
   On a valid request RTK as shipped is never turned down by the check of its work: it contributes
   its output, unless that is over 10 MiB.
   */
  lemma DefaultRtkContributes(s: Setup, route: Route, caveman: Option<string>, ponytail: Option<string>,
                              filter: string -> Option<string>, body: string, t: nat)
    requires Steady(s) && Production(s.config.checks, route, caveman, ponytail) && ProviderShape(body, route)
    ensures var after := Rtk.Apply(body, route, filter);
            RunLocal(s, Metrics.Rtk, true, body, DefaultRtk(route, filter), t).after
            == if Utf8.Length(after) <= BYTES_MAX then after else body
  {
    hide ProviderShape, Shaped, Inject, Rtk.Apply, Rtk.ValidTransition, RunLocal, Utf8.Length, Steady;
    var after := Rtk.Apply(body, route, filter);
    ShapedIsValid(body, route);
    RtkKeepsShape(body, route, filter);
    ShapedIsValid(after, route);
    Rtk.ApplyAccepted(body, route, filter);
    ValidIsSome(after, route);
    assert s.config.checks.transition(body, after) && s.config.checks.extra(Metrics.Stage.Rtk, body, after);
    Contributes(s, Metrics.Stage.Rtk, body, DefaultRtk(route, filter), after, t, Utf8.Length(after) <= BYTES_MAX);
  }

  lemma ValidIsSome(body: string, route: Route)
    ensures ProviderShape(body, route) ==> body != ""
  {
    hide TreeShape;
  }

  /** So do the prompt stages, unless the first request member is empty where they would write. */
  lemma DefaultPromptsContribute(s: Setup, route: Route, caveman: Option<string>, ponytail: Option<string>,
                                 body: string, t: nat)
    requires Steady(s) && Production(s.config.checks, route, caveman, ponytail) && ProviderShape(body, route)
    ensures var after := Inject(body, route, caveman, None);
            RunLocal(s, Metrics.Caveman, true, body, DefaultCaveman(route, caveman), t).after
            == if Taken(body, route, caveman, None) then after else body
    ensures var after := Inject(body, route, None, ponytail);
            RunLocal(s, Metrics.Ponytail, true, body, DefaultPonytail(route, ponytail), t).after
            == if Taken(body, route, None, ponytail) then after else body
  {
    hide ProviderShape, Shaped, Inject, InjectBreaks, Rtk.Apply, Rtk.ValidTransition, RunLocal, Utf8.Length, Steady;
    var x, y := Inject(body, route, caveman, None), Inject(body, route, None, ponytail);
    ShapedIsValid(body, route);
    InjectKeepsShape(body, route, caveman, None);
    InjectKeepsShape(body, route, None, ponytail);
    ShapedIsValid(x, route);
    ShapedIsValid(y, route);
    ValidIsSome(x, route);
    ValidIsSome(y, route);
    assert s.config.checks.extra(Metrics.Caveman, body, x) && s.config.checks.extra(Metrics.Ponytail, body, y);
    Contributes(s, Metrics.Caveman, body, DefaultCaveman(route, caveman), x, t, Taken(body, route, caveman, None));
    Contributes(s, Metrics.Ponytail, body, DefaultPonytail(route, ponytail), y, t, Taken(body, route, None, ponytail));
  }

  /** What is written is neither too long nor put into an empty first request member. */
  ghost predicate Taken(body: string, route: Route, caveman: Option<string>, ponytail: Option<string>) {
    && Utf8.Length(Inject(body, route, caveman, ponytail)) <= BYTES_MAX
    && !InjectBreaks(body, route, caveman, ponytail)
  }

  /** With the shipped checks the answer is the request itself or a valid request of the provider. */
  lemma NormalizedIsValid(s: Setup, cached: Cached, route: Route, caveman: Option<string>, ponytail: Option<string>,
                          body: string)
    requires Production(s.config.checks, route, caveman, ponytail)
    ensures var result := Normalized(s, cached, body).0; result == body || ProviderShape(result, route)
    ensures !ProviderShape(body, route) ==> Normalized(s, cached, body).0 == body
  {
    hide ProviderShape, Normalized, Inject, Rtk.ValidTransition;
    NormalizeSafe(s, cached, body);
  }
}
