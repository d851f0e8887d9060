/** What a valid request comes back as from the stages the program ships. */
module PipelineShipped {
  import opened Common
  import opened Metrics
  import opened Payloads
  import opened PromptLaws
  import opened Prompts
  import opened ProviderShapes
  import opened Pipeline
  import opened PipelineDefaults
  import opened PipelineExact
  import RtkStage = Rtk
  import Utf8

  /** The shipped checks and stage functions. */
  ghost predicate Shipped(s: Setup, route: Route, caveman: Option<string>, ponytail: Option<string>,
                          filter: string -> Option<string>)
  {
    && Production(s.config.checks, route, caveman, ponytail)
    && (forall b :: s.rtk(b) == Output(RtkStage.Apply(b, route, filter)))
    && (forall b :: s.caveman(b) == Output(Inject(b, route, caveman, None)))
    && (forall b :: s.ponytail(b) == Output(Inject(b, route, None, ponytail)))
  }

  lemma RtkSound(s: Setup, route: Route, caveman: Option<string>, ponytail: Option<string>,
                 filter: string -> Option<string>, body: string)
    requires Production(s.config.checks, route, caveman, ponytail) && ProviderShape(body, route)
    ensures var after := RtkStage.Apply(body, route, filter);
            && (Sound(s.config.checks, Metrics.Rtk, body, after) <==> Utf8.Length(after) <= BYTES_MAX)
            && (Utf8.Length(after) <= BYTES_MAX ==> ProviderShape(after, route))
  {
    hide ProviderShape, Shaped, Inject, RtkStage.Apply, RtkStage.ValidTransition, Utf8.Length;
    var after := RtkStage.Apply(body, route, filter);
    ShapedIsValid(body, route);
    RtkKeepsShape(body, route, filter);
    ShapedIsValid(after, route);
    RtkStage.ApplyAccepted(body, route, filter);
    ValidIsSome(after, route);
    assert s.config.checks.transition(body, after) && s.config.checks.extra(Metrics.Rtk, body, after);
  }

  lemma PromptSound(s: Setup, route: Route, caveman: Option<string>, ponytail: Option<string>, body: string)
    requires Production(s.config.checks, route, caveman, ponytail) && ProviderShape(body, route)
    ensures Sound(s.config.checks, Caveman, body, Inject(body, route, caveman, None))
            <==> Taken(body, route, caveman, None)
    ensures Sound(s.config.checks, Ponytail, body, Inject(body, route, None, ponytail))
            <==> Taken(body, route, None, ponytail)
    ensures Taken(body, route, caveman, None) ==> ProviderShape(Inject(body, route, caveman, None), route)
    ensures Taken(body, route, None, ponytail) ==> ProviderShape(Inject(body, route, None, ponytail), route)
  {
    hide ProviderShape, Shaped, Inject, InjectBreaks, RtkStage.ValidTransition, Utf8.Length;
    var x, y := Inject(body, route, caveman, None), Inject(body, route, None, ponytail);
    ShapedIsValid(body, route);
    InjectKeepsShape(body, route, caveman, None);
    InjectKeepsShape(body, route, None, ponytail);
    ShapedIsValid(x, route);
    ShapedIsValid(y, route);
    ValidIsSome(x, route);
    ValidIsSome(y, route);
    assert s.config.checks.extra(Caveman, body, x) && s.config.checks.extra(Ponytail, body, y);
  }

  lemma RemoteSound(s: Setup, route: Route, caveman: Option<string>, ponytail: Option<string>, before: string,
                    after: string)
    requires Production(s.config.checks, route, caveman, ponytail)
    ensures Sound(s.config.checks, Headroom, before, after) <==> ProviderShape(after, route)
  {
    hide ProviderShape, Inject, RtkStage.ValidTransition;
    ValidIsSome(after, route);
    assert s.config.checks.extra(Headroom, before, after)
           && s.config.checks.shape(after) == ProviderShape(after, route);
  }

  /** RTK's output, unless it is over 10 MiB or the stage is off. */
  ghost function AfterRtk(c: Config, route: Route, filter: string -> Option<string>, body: string): string {
    var after := RtkStage.Apply(body, route, filter);
    if c.rtkOn && Utf8.Length(after) <= BYTES_MAX then after else body
  }

  /** The remote answer, if it came back without a failure and is a valid request. */
  ghost function AfterRemote(s: Setup, route: Route, body: string): string {
    match s.remote(body)
    case Crashed => body
    case Answer(after, outcome) =>
      if (outcome.Applied? || outcome.Unchanged? || outcome.Refused?) && ProviderShape(after, route)
      then after else body
  }

  /** What goes into the prompt stages: shared work, work of this request's own, or RTK's alone. */
  ghost function AfterTwo(s: Setup, cached: Cached, route: Route, filter: string -> Option<string>,
                          body: string): string {
    if s.config.headroomOn && s.config.checks.small(body) then
      if cached.Hit? then cached.body else AfterRemote(s, route, AfterRtk(s.config, route, filter, body))
    else AfterRtk(s.config, route, filter, body)
  }

  /** The body with the prompt, unless the stage is off, the result over 10 MiB, or there is no place for it. */
  ghost function AfterPrompt(on: bool, route: Route, caveman: Option<string>, ponytail: Option<string>,
                             body: string): string {
    if on && Taken(body, route, caveman, ponytail) then Inject(body, route, caveman, ponytail) else body
  }

  lemma TurnOutput(c: Checks, stage: Metrics.Stage, on: bool, x: string, before: string, after: string, o: Outcome)
    requires LocalTurn(c, stage, on, Output(x), before, after, o)
    ensures after == if on && Sound(c, stage, before, x) then x else before
  {
    hide Sound;
  }

  lemma ShippedAt(s: Setup, route: Route, caveman: Option<string>, ponytail: Option<string>,
                  filter: string -> Option<string>, b: string)
    requires Shipped(s, route, caveman, ponytail, filter)
    ensures Production(s.config.checks, route, caveman, ponytail)
    ensures s.rtk(b) == Output(RtkStage.Apply(b, route, filter))
    ensures s.caveman(b) == Output(Inject(b, route, caveman, None))
    ensures s.ponytail(b) == Output(Inject(b, route, None, ponytail))
    ensures s.config.checks.shape(b) == ProviderShape(b, route) && s.config.checks.final(b)
  {
    hide Inject, RtkStage.Apply, RtkStage.ValidTransition, ProviderShape;
  }

  lemma RtkShipped(s: Setup, route: Route, caveman: Option<string>, ponytail: Option<string>,
                   filter: string -> Option<string>, body: string, b1: string, o: Outcome)
    requires Shipped(s, route, caveman, ponytail, filter) && ProviderShape(body, route)
    requires LocalTurn(s.config.checks, Metrics.Rtk, s.config.rtkOn, s.rtk(body), body, b1, o)
    ensures b1 == AfterRtk(s.config, route, filter, body) && ProviderShape(b1, route)
  {
    hide Shipped, Production, ProviderShape, Inject, RtkStage.Apply, Sound, Utf8.Length, LocalTurn;
    ShippedAt(s, route, caveman, ponytail, filter, body);
    RtkSound(s, route, caveman, ponytail, filter, body);
    TurnOutput(s.config.checks, Metrics.Rtk, s.config.rtkOn, RtkStage.Apply(body, route, filter), body, b1, o);
  }

  lemma RemoteShipped(s: Setup, route: Route, caveman: Option<string>, ponytail: Option<string>,
                      filter: string -> Option<string>, b1: string, b2: string, o: Outcome)
    requires Shipped(s, route, caveman, ponytail, filter) && ProviderShape(b1, route)
    requires RemoteTurn(s.config.checks, true, s.remote(b1), b1, b2, o)
    ensures b2 == AfterRemote(s, route, b1) && ProviderShape(b2, route)
  {
    hide Shipped, Production, ProviderShape, Sound;
    ShippedAt(s, route, caveman, ponytail, filter, b1);
    if s.remote(b1).Answer? { RemoteSound(s, route, caveman, ponytail, b1, s.remote(b1).body); }
  }

  lemma TwoShipped(s: Setup, cached: Cached, route: Route, caveman: Option<string>, ponytail: Option<string>,
                   filter: string -> Option<string>, body: string, b2: string, o1: Outcome, o2: Outcome)
    requires Shipped(s, route, caveman, ponytail, filter) && ProviderShape(body, route)
    requires FirstTwo(s, cached, body, b2, o1, o2)
    ensures b2 == AfterTwo(s, cached, route, filter, body)
    ensures !(cached.Hit? && s.config.headroomOn && s.config.checks.small(body)) ==> ProviderShape(b2, route)
  {
    hide Shipped, ProviderShape, LocalTurn, RemoteTurn, AfterRtk, AfterRemote;
    var c, shared := s.config, s.config.headroomOn && s.config.checks.small(body);
    if !(shared && cached.Hit?) {
      var b1 :| LocalTurn(c.checks, Metrics.Rtk, c.rtkOn, s.rtk(body), body, b1, o1)
        && (if shared then RemoteTurn(c.checks, true, s.remote(b1), b1, b2, o2) else b2 == b1 && o2 == Bypassed);
      RtkShipped(s, route, caveman, ponytail, filter, body, b1, o1);
      if shared { RemoteShipped(s, route, caveman, ponytail, filter, b1, b2, o2); }
    }
  }

  lemma PromptsShipped(s: Setup, route: Route, caveman: Option<string>, ponytail: Option<string>,
                       filter: string -> Option<string>, b: string, after: string, o: Outcome)
    requires Shipped(s, route, caveman, ponytail, filter) && ProviderShape(b, route)
    ensures LocalTurn(s.config.checks, Caveman, s.config.cavemanOn, s.caveman(b), b, after, o) ==>
              after == AfterPrompt(s.config.cavemanOn, route, caveman, None, b) && ProviderShape(after, route)
    ensures LocalTurn(s.config.checks, Ponytail, s.config.ponytailOn, s.ponytail(b), b, after, o) ==>
              after == AfterPrompt(s.config.ponytailOn, route, None, ponytail, b) && ProviderShape(after, route)
  {
    hide Shipped, Production, ProviderShape, Inject, Sound, Taken, LocalTurn;
    ShippedAt(s, route, caveman, ponytail, filter, b);
    PromptSound(s, route, caveman, ponytail, b);
    if LocalTurn(s.config.checks, Caveman, s.config.cavemanOn, s.caveman(b), b, after, o) {
      TurnOutput(s.config.checks, Caveman, s.config.cavemanOn, Inject(b, route, caveman, None), b, after, o);
    }
    if LocalTurn(s.config.checks, Ponytail, s.config.ponytailOn, s.ponytail(b), b, after, o) {
      TurnOutput(s.config.checks, Ponytail, s.config.ponytailOn, Inject(b, route, None, ponytail), b, after, o);
    }
  }

  lemma EndShipped(s: Setup, cached: Cached, route: Route, caveman: Option<string>, ponytail: Option<string>,
                   filter: string -> Option<string>, body: string, b2: string, b3: string, b4: string,
                   reports: seq<Record>)
    requires Shipped(s, route, caveman, ponytail, filter) && ProviderShape(body, route)
    requires s.config.headroomOn && s.config.checks.small(body) && cached.Hit? ==> ProviderShape(cached.body, route)
    requires Ends(s, cached, body, b2, b3, b4, reports)
    ensures b2 == AfterTwo(s, cached, route, filter, body)
    ensures b3 == AfterPrompt(s.config.cavemanOn, route, caveman, None, b2)
    ensures b4 == AfterPrompt(s.config.ponytailOn, route, None, ponytail, b3) && ProviderShape(b4, route)
  {
    hide Shipped, ProviderShape, FirstTwo, LocalTurn, AfterPrompt, AfterRtk, AfterRemote;
    var o1, o2, o3, o4 :| FirstTwo(s, cached, body, b2, o1, o2)
      && LocalTurn(s.config.checks, Caveman, s.config.cavemanOn, s.caveman(b2), b2, b3, o3)
      && LocalTurn(s.config.checks, Ponytail, s.config.ponytailOn, s.ponytail(b3), b3, b4, o4);
    TwoShipped(s, cached, route, caveman, ponytail, filter, body, b2, o1, o2);
    PromptsShipped(s, route, caveman, ponytail, filter, b2, b3, o3);
    PromptsShipped(s, route, caveman, ponytail, filter, b3, b4, o4);
  }

  /**
   A valid request comes back with RTK's output, Headroom's answer and both prompts put in, one after
   the other; each is left out only if its stage is off or its result cannot be sent.
   */
  lemma ShippedExact(s: Setup, cached: Cached, route: Route, caveman: Option<string>, ponytail: Option<string>,
                     filter: string -> Option<string>, body: string)
    requires Shipped(s, route, caveman, ponytail, filter) && ProviderShape(body, route) && Steady(s)
    requires s.config.allowed
             && (s.config.rtkOn || s.config.headroomOn || s.config.cavemanOn || s.config.ponytailOn)
    requires s.config.headroomOn && s.config.checks.small(body) ==>
               !cached.HitFailed? && (cached.Hit? ==> ProviderShape(cached.body, route))
    ensures var b2 := AfterTwo(s, cached, route, filter, body);
            var b3 := AfterPrompt(s.config.cavemanOn, route, caveman, None, b2);
            Normalized(s, cached, body).0 == AfterPrompt(s.config.ponytailOn, route, None, ponytail, b3)
  {
    hide Shipped, ProviderShape, Normalized, Ends, AfterTwo, AfterPrompt;
    NormalizeExact(s, cached, body);
    ShippedAt(s, route, caveman, ponytail, filter, body);
    var b2, b3, b4, reports :| Ends(s, cached, body, b2, b3, b4, reports)
      && Normalized(s, cached, body).0
         == if s.config.checks.shape(b4) && s.config.checks.final(b4) then b4 else body;
    EndShipped(s, cached, route, caveman, ponytail, filter, body, b2, b3, b4, reports);
    ShippedAt(s, route, caveman, ponytail, filter, b4);
  }
}
