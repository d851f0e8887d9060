/**
 What a request comes back as when no reading of the clock panics: every stage hands on its output
 if it is on, gave one and had it accepted, and its input otherwise.
 */
module PipelineExact {
  import opened Metrics
  import opened Pipeline

  /** What is demanded of an output. */
  predicate Sound(c: Checks, stage: Stage, before: string, after: string) {
    && after != "" && c.shape(after) && c.extra(stage, before, after)
    && match stage
       case Rtk => c.transition(before, after)
       case Caveman => after == c.caveman(before)
       case Ponytail => after == c.ponytail(before)
       case _ => true
  }

  /** A local stage's input, what its function did, and what it hands on and reports. */
  predicate LocalTurn(c: Checks, stage: Stage, on: bool, did: Local, before: string, after: string,
                  outcome: Outcome)
  {
    if on && did.Output? && Sound(c, stage, before, did.body) then
      after == did.body && outcome == if after == before then Bypassed else Executed
    else after == before && outcome == if on then FailOpen else Bypassed
  }

  /** The same for the remote stage. */
  predicate RemoteTurn(c: Checks, on: bool, did: Remote, before: string, after: string, outcome: Outcome) {
    if !on then after == before && outcome == Bypassed
    else
      match did
      case Crashed => after == before && outcome == FailOpen
      case Answer(_, TimedOut) => after == before && outcome == Timeout
      case Answer(_, Busy) => after == before && outcome == Saturated
      case Answer(_, Failed) => after == before && outcome == FailOpen
      case Answer(body, reply) =>
        if !Sound(c, Headroom, before, body) then after == before && outcome == FailOpen
        else after == body && outcome == if reply.Applied? && after != before then Executed else Bypassed
  }

  /** The body after RTK and Headroom, and their outcomes: run here, or by another request. */
  ghost predicate FirstTwo(s: Setup, cached: Cached, body: string, b2: string, o1: Outcome, o2: Outcome) {
    var c, shared := s.config, s.config.headroomOn && s.config.checks.small(body);
    if shared && cached.Hit? then b2 == cached.body && o1 == o2 == Bypassed
    else exists b1 ::
      && LocalTurn(c.checks, Rtk, c.rtkOn, s.rtk(body), body, b1, o1)
      && (if shared then RemoteTurn(c.checks, true, s.remote(b1), b1, b2, o2) else b2 == b1 && o2 == Bypassed)
  }

  /** The end of the four stages, and what is reported on the way. */
  ghost predicate Ends(s: Setup, cached: Cached, body: string, b2: string, b3: string, b4: string,
                       reports: seq<Record>)
  {
    var c := s.config;
    exists o1, o2, o3, o4 ::
      && FirstTwo(s, cached, body, b2, o1, o2)
      && LocalTurn(c.checks, Caveman, c.cavemanOn, s.caveman(b2), b2, b3, o3)
      && LocalTurn(c.checks, Ponytail, c.ponytailOn, s.ponytail(b3), b3, b4, o4)
      && reports == [(Rtk, o1), (Headroom, o2), (Caveman, o3), (Ponytail, o4)]
  }

  lemma SoundIsAccepts(c: Checks, stage: Stage, before: string, after: string)
    ensures Sound(c, stage, before, after) == Accepts(c, stage, before, after)
  {
  }

  lemma LocalExact(s: Setup, stage: Stage, on: bool, body: string, run: string -> Local, t: nat)
    requires Steady(s)
    ensures var r := RunLocal(s, stage, on, body, run, t);
            && !r.escaped && |r.records| == 1 && r.records[0].0 == stage
            && LocalTurn(s.config.checks, stage, on, run(body), body, r.after, r.records[0].1)
  {
    if run(body).Output? { SoundIsAccepts(s.config.checks, stage, body, run(body).body); }
    hide Accepts, Sound;
  }

  lemma RemoteExact(s: Setup, body: string, t: nat)
    requires Steady(s)
    ensures var r := RunHeadroom(s, body, t);
            && !r.escaped && |r.records| == 1 && r.records[0].0 == Headroom
            && RemoteTurn(s.config.checks, s.config.headroomOn, s.remote(body), body, r.after, r.records[0].1)
  {
    if s.remote(body).Answer? { SoundIsAccepts(s.config.checks, Headroom, body, s.remote(body).body); }
    hide Accepts, Sound;
  }

  lemma FirstTwoExact(s: Setup, cached: Cached, body: string)
    requires Steady(s) && !(UsesCache(s.config, body) && cached.HitFailed?)
    ensures var r := Compressed(s, cached, body);
            && !r.escaped && |r.records| == 2 && r.records[0].0 == Rtk && r.records[1].0 == Headroom
            && FirstTwo(s, cached, body, r.after, r.records[0].1, r.records[1].1)
  {
    var first := RunLocal(s, Rtk, s.config.rtkOn, body, s.rtk, 0);
    LocalExact(s, Rtk, s.config.rtkOn, body, s.rtk, 0);
    RemoteExact(s, first.after, first.t);
    hide RunLocal, RunHeadroom, LocalTurn, RemoteTurn;
  }

  /** The body and the reports after the four stages. */
  lemma StagedExact(s: Setup, cached: Cached, body: string) returns (b2: string, b3: string)
    requires Steady(s) && !(UsesCache(s.config, body) && cached.HitFailed?)
    ensures var r := Staged(s, cached, body); !r.escaped && Ends(s, cached, body, b2, b3, r.after, r.records)
  {
    var c, two := s.config, Compressed(s, cached, body);
    FirstTwoExact(s, cached, body);
    LocalExact(s, Caveman, c.cavemanOn, two.after, s.caveman, two.t);
    var third := RunLocal(s, Caveman, c.cavemanOn, two.after, s.caveman, two.t);
    LocalExact(s, Ponytail, c.ponytailOn, third.after, s.ponytail, third.t);
    var fourth := RunLocal(s, Ponytail, c.ponytailOn, third.after, s.ponytail, third.t);
    hide RunLocal, Compressed, LocalTurn, FirstTwo;
    b2, b3 := two.after, third.after;
    assert Staged(s, cached, body).records
        == [two.records[0], two.records[1], third.records[0], fourth.records[0]];
  }

  /**
   The answer is the end of the four stages if that has valid shape and passes the final check, and
   the request otherwise; nothing happens to a request that is not eligible. What is reported says
   which.
   */
  lemma NormalizeExact(s: Setup, cached: Cached, body: string)
    requires Steady(s) && !(s.config.headroomOn && s.config.checks.small(body) && cached.HitFailed?)
    ensures var c := s.config;
            var (result, records) := Normalized(s, cached, body);
            if !(c.rtkOn || c.headroomOn || c.cavemanOn || c.ponytailOn) then
              result == body && records == [(Rtk, Bypassed), (Headroom, Bypassed), (Caveman, Bypassed),
                                            (Ponytail, Bypassed), (Whole, Bypassed)]
            else if !c.allowed || !c.checks.shape(body) then result == body && records == [(Whole, Bypassed)]
            else exists b2, b3, b4, reports ::
              && Ends(s, cached, body, b2, b3, b4, reports)
              && (if c.checks.shape(b4) && c.checks.final(b4) then
                    result == b4 && records == reports + [(Whole, if b4 == body then Bypassed else Executed)]
                  else result == body && records == reports + [(Whole, FailOpen)])
  {
    hide Staged, Ends;
    var b2, b3 := StagedExact(s, cached, body);
    var r := Staged(s, cached, body);
    assert Ends(s, cached, body, b2, b3, r.after, r.records);
  }

  /** Only one body and one list of reports can be the end. */
  lemma EndsOnce(s: Setup, cached: Cached, body: string, b2: string, b3: string, b4: string, reports: seq<Record>,
                 c2: string, c3: string, c4: string, others: seq<Record>)
    requires Ends(s, cached, body, b2, b3, b4, reports) && Ends(s, cached, body, c2, c3, c4, others)
    ensures b2 == c2 && b3 == c3 && b4 == c4 && reports == others
  {
    hide Sound;
  }

  /** The work that is cached: RTK's turn on the request and then the remote stage's. */
  ghost predicate Worked(s: Setup, body: string, b2: string) {
    exists b1, o1, o2 ::
      && LocalTurn(s.config.checks, Rtk, s.config.rtkOn, s.rtk(body), body, b1, o1)
      && RemoteTurn(s.config.checks, s.config.headroomOn, s.remote(b1), b1, b2, o2)
  }

  lemma WorkedExact(s: Setup, body: string)
    requires Steady(s)
    ensures Worked(s, body, TwoStages(s, body).after)
  {
    var first := RunLocal(s, Rtk, s.config.rtkOn, body, s.rtk, 0);
    LocalExact(s, Rtk, s.config.rtkOn, body, s.rtk, 0);
    RemoteExact(s, first.after, first.t);
    hide RunLocal, RunHeadroom, LocalTurn, RemoteTurn;
    assert RemoteTurn(s.config.checks, s.config.headroomOn, s.remote(first.after), first.after,
                      TwoStages(s, body).after, RunHeadroom(s, first.after, first.t).records[0].1);
  }
}
