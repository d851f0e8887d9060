/**
 The request normalizer: four stages, each of which may fail or panic, read by a clock that may
 panic as well, and none of which can spoil the request.
 */
module Pipeline {
  import opened Metrics

  type Record = (Stage, Outcome)

  /** What a stage function did with its input. */
  datatype Local = Erred | Panicked | Output(body: string)

  datatype RunnerOutcome = Applied | Unchanged | Refused | TimedOut | Busy | Failed

  datatype Remote = Crashed | Answer(body: string, outcome: RunnerOutcome)

  /** Whose work the cache gives this request: its own, or the result or the failure of another's. */
  datatype Cached = Own | Hit(body: string) | HitFailed

  /** The checks that always run, and the prompt text each prompt stage must produce. */
  datatype Checks = Checks(
    shape: string -> bool,
    transition: (string, string) -> bool,
    caveman: string -> string,
    ponytail: string -> string,
    extra: (Stage, string, string) -> bool,
    final: string -> bool,
    small: string -> bool)

  datatype Config = Config(
    checks: Checks, rtkOn: bool, headroomOn: bool, cavemanOn: bool, ponytailOn: bool, allowed: bool)

  /** One request: its configuration, and how everything it calls behaves; clock: which readings panic. */
  datatype Setup = Setup(
    config: Config, rtk: string -> Local, remote: string -> Remote, caveman: string -> Local,
    ponytail: string -> Local, clock: nat -> bool)

  predicate Accepts(c: Checks, stage: Stage, before: string, after: string) {
    && after != "" && c.shape(after)
    && (stage.Rtk? ==> c.transition(before, after))
    && (stage.Caveman? ==> after == c.caveman(before))
    && (stage.Ponytail? ==> after == c.ponytail(before))
    && c.extra(stage, before, after)
  }

  /* ---------- one stage ---------- */

  /** What a stage leaves behind: the body, its reports, the next reading of the clock; escaped: a panic got out. */
  datatype Ran = Ran(after: string, records: seq<Record>, t: nat, escaped: bool)

  /** The handler of a stage that panicked: it reads the clock for its report. */
  function Recovered(s: Setup, stage: Stage, body: string, t: nat): Ran {
    if s.clock(t) then Ran(body, [], t + 1, true) else Ran(body, [(stage, FailOpen)], t + 1, false)
  }

  /** The report at the end of a stage; a panic of the clock is recovered like one of the stage. */
  function Reported(s: Setup, stage: Stage, body: string, after: string, outcome: Outcome, t: nat): Ran {
    if s.clock(t) then Recovered(s, stage, body, t + 1) else Ran(after, [(stage, outcome)], t + 1, false)
  }

  /** A stage that is off reads the clock twice, outside its handler. */
  function Skipped(s: Setup, stage: Stage, body: string, t: nat): Ran {
    if s.clock(t) then Ran(body, [], t + 1, true) else Ran(body, [(stage, Bypassed)], t + 1, false)
  }

  function RunLocal(s: Setup, stage: Stage, enabled: bool, body: string, run: string -> Local, t: nat): Ran {
    if s.clock(t) then Ran(body, [], t + 1, true)
    else if !enabled then Skipped(s, stage, body, t + 1)
    else
      match run(body)
      case Panicked => Recovered(s, stage, body, t + 1)
      case Erred => Reported(s, stage, body, body, FailOpen, t + 1)
      case Output(after) =>
        if !Accepts(s.config.checks, stage, body, after) then Reported(s, stage, body, body, FailOpen, t + 1)
        else Reported(s, stage, body, after, if after == body then Bypassed else Executed, t + 1)
  }

  function MetricFor(outcome: RunnerOutcome, body: string, after: string): Outcome {
    match outcome
    case Applied => if body == after then Bypassed else Executed
    case Unchanged => Bypassed
    case Refused => Bypassed
    case TimedOut => Timeout
    case Busy => Saturated
    case Failed => FailOpen
  }

  function RunHeadroom(s: Setup, body: string, t: nat): Ran {
    if s.clock(t) then Ran(body, [], t + 1, true)
    else if !s.config.headroomOn then Skipped(s, Headroom, body, t + 1)
    else
      match s.remote(body)
      case Crashed => Recovered(s, Headroom, body, t + 1)
      case Answer(after, outcome) =>
        var metric := MetricFor(outcome, body, after);
        if metric.FailOpen? || metric.Timeout? || metric.Saturated? then
          Reported(s, Headroom, body, body, metric, t + 1)
        else if !Accepts(s.config.checks, Headroom, body, after) then
          Reported(s, Headroom, body, body, FailOpen, t + 1)
        else Reported(s, Headroom, body, after, metric, t + 1)
  }

  /* ---------- one request ---------- */

  predicate AllOff(c: Config) { !c.rtkOn && !c.headroomOn && !c.cavemanOn && !c.ponytailOn }

  predicate Eligible(c: Config, body: string) { !AllOff(c) && c.allowed && c.checks.shape(body) }

  predicate UsesCache(c: Config, body: string) { c.headroomOn && c.checks.small(body) }

  /** What is cached: RTK and then Headroom; a panic that gets out makes the work fail. */
  function TwoStages(s: Setup, body: string): Ran {
    var first := RunLocal(s, Rtk, s.config.rtkOn, body, s.rtk, 0);
    if first.escaped then first
    else
      var second := RunHeadroom(s, first.after, first.t);
      second.(records := first.records + second.records)
  }

  /** The body after the first two stages. */
  function Compressed(s: Setup, cached: Cached, body: string): Ran {
    if UsesCache(s.config, body) then
      match cached
      case Own =>
        var work := TwoStages(s, body);
        if work.escaped then Ran(body, work.records + [(Whole, FailOpen)], work.t, false) else work
      case Hit(b2) => Ran(b2, [(Rtk, Bypassed), (Headroom, Bypassed)], 0, false)
      case HitFailed => Ran(body, [(Whole, FailOpen)], 0, false)
    else
      var first := RunLocal(s, Rtk, s.config.rtkOn, body, s.rtk, 0);
      if first.escaped then first else first.(records := first.records + [(Headroom, Bypassed)])
  }

  /** A stage after others; nothing more happens once a panic got out. */
  function Then(s: Setup, so: Ran, stage: Stage, enabled: bool, run: string -> Local): Ran {
    if so.escaped then so
    else
      var next := RunLocal(s, stage, enabled, so.after, run, so.t);
      next.(records := so.records + next.records)
  }

  function Staged(s: Setup, cached: Cached, body: string): Ran {
    Then(s, Then(s, Compressed(s, cached, body), Caveman, s.config.cavemanOn, s.caveman),
         Ponytail, s.config.ponytailOn, s.ponytail)
  }

  /** A panic that gets out of a stage is recovered for the whole request. */
  function Normalized(s: Setup, cached: Cached, body: string): (string, seq<Record>) {
    var c := s.config;
    if AllOff(c) then
      (body, [(Rtk, Bypassed), (Headroom, Bypassed), (Caveman, Bypassed), (Ponytail, Bypassed), (Whole, Bypassed)])
    else if !Eligible(c, body) then (body, [(Whole, Bypassed)])
    else
      var r := Staged(s, cached, body);
      if r.escaped || !c.checks.shape(r.after) || !c.checks.final(r.after) then
        (body, r.records + [(Whole, FailOpen)])
      else (r.after, r.records + [(Whole, if r.after == body then Bypassed else Executed)])
  }

  /* ---------- the stages in order ---------- */

  method ApplyLocal(s: Setup, stage: Stage, enabled: bool, body: string, run: string -> Local, t: nat)
    returns (r: Ran)
    ensures r == RunLocal(s, stage, enabled, body, run, t)
  {
    if s.clock(t) { return Ran(body, [], t + 1, true); }
    if !enabled {
      if s.clock(t + 1) { return Ran(body, [], t + 2, true); }
      return Ran(body, [(stage, Bypassed)], t + 2, false);
    }
    var output := run(body);
    var recovered := output.Panicked?;
    var next := t + 1;
    if !recovered {
      var outcome, after := FailOpen, body;
      if output.Output? && Accepts(s.config.checks, stage, body, output.body) {
        after := output.body;
        outcome := Executed;
        if body == after { outcome := Bypassed; }
      }
      if !s.clock(next) { return Ran(after, [(stage, outcome)], next + 1, false); }
      next := next + 1;
    }
    if s.clock(next) { return Ran(body, [], next + 1, true); }
    return Ran(body, [(stage, FailOpen)], next + 1, false);
  }

  method ApplyHeadroom(s: Setup, body: string, t: nat) returns (r: Ran)
    ensures r == RunHeadroom(s, body, t)
  {
    if s.clock(t) { return Ran(body, [], t + 1, true); }
    if !s.config.headroomOn {
      if s.clock(t + 1) { return Ran(body, [], t + 2, true); }
      return Ran(body, [(Headroom, Bypassed)], t + 2, false);
    }
    var answer := s.remote(body);
    var next := t + 1;
    if answer.Answer? {
      var outcome, after := MetricFor(answer.outcome, body, answer.body), answer.body;
      if outcome.FailOpen? || outcome.Timeout? || outcome.Saturated?
         || !Accepts(s.config.checks, Headroom, body, answer.body)
      {
        if outcome.Executed? || outcome.Bypassed? { outcome := FailOpen; }
        after := body;
      }
      if !s.clock(next) { return Ran(after, [(Headroom, outcome)], next + 1, false); }
      next := next + 1;
    }
    if s.clock(next) { return Ran(body, [], next + 1, true); }
    return Ran(body, [(Headroom, FailOpen)], next + 1, false);
  }

  method Normalize(s: Setup, cached: Cached, original: string) returns (result: string, records: seq<Record>)
    ensures (result, records) == Normalized(s, cached, original)
  {
    var c := s.config;
    if AllOff(c) {
      records := [(Rtk, Bypassed), (Headroom, Bypassed), (Caveman, Bypassed), (Ponytail, Bypassed), (Whole, Bypassed)];
      return original, records;
    }
    if !c.allowed || !c.checks.shape(original) { return original, [(Whole, Bypassed)]; }
    var so := ApplyFirst(s, cached, original);
    hide RunLocal, RunHeadroom, Compressed;
    ghost var two := so;
    if !so.escaped {
      var next := ApplyLocal(s, Caveman, c.cavemanOn, so.after, s.caveman, so.t);
      so := next.(records := so.records + next.records);
    }
    assert so == Then(s, two, Caveman, c.cavemanOn, s.caveman);
    if !so.escaped {
      var next := ApplyLocal(s, Ponytail, c.ponytailOn, so.after, s.ponytail, so.t);
      so := next.(records := so.records + next.records);
    }
    assert so == Staged(s, cached, original);
    if so.escaped || !c.checks.shape(so.after) || !c.checks.final(so.after) {
      return original, so.records + [(Whole, FailOpen)];
    }
    return so.after, so.records + [(Whole, if so.after == original then Bypassed else Executed)];
  }

  /** The first two stages, by way of the cache where it is used. */
  method ApplyFirst(s: Setup, cached: Cached, original: string) returns (so: Ran)
    ensures so == Compressed(s, cached, original)
  {
    hide RunLocal, RunHeadroom;
    if UsesCache(s.config, original) {
      match cached {
        case Own =>
          so := ApplyLocal(s, Rtk, s.config.rtkOn, original, s.rtk, 0);
          if !so.escaped {
            var next := ApplyHeadroom(s, so.after, so.t);
            so := next.(records := so.records + next.records);
          }
          if so.escaped { so := Ran(original, so.records + [(Whole, FailOpen)], so.t, false); }
        case Hit(body) => so := Ran(body, [(Rtk, Bypassed), (Headroom, Bypassed)], 0, false);
        case HitFailed => so := Ran(original, [(Whole, FailOpen)], 0, false);
      }
    } else {
      so := ApplyLocal(s, Rtk, s.config.rtkOn, original, s.rtk, 0);
      if !so.escaped { so := so.(records := so.records + [(Headroom, Bypassed)]); }
    }
  }

  /* ---------- what holds whatever the stages and the clock do ---------- */

  /** What a stage that is on or off may contribute. */
  predicate MayFollow(c: Checks, stage: Stage, enabled: bool, before: string, after: string) {
    after == before || (enabled && Accepts(c, stage, before, after))
  }

  lemma LocalFollows(s: Setup, stage: Stage, enabled: bool, body: string, run: string -> Local, t: nat)
    ensures MayFollow(s.config.checks, stage, enabled, body, RunLocal(s, stage, enabled, body, run, t).after)
  {
    hide Accepts;
  }

  /** The first two stages, in order, each adding a checked output or nothing. */
  predicate TwoFollow(c: Config, body: string, b1: string, b2: string) {
    MayFollow(c.checks, Rtk, c.rtkOn, body, b1) && MayFollow(c.checks, Headroom, c.headroomOn, b1, b2)
  }

  lemma TwoStagesFollow(s: Setup, body: string) returns (b1: string)
    ensures TwoFollow(s.config, body, b1, TwoStages(s, body).after)
  {
    b1 := RunLocal(s, Rtk, s.config.rtkOn, body, s.rtk, 0).after;
    LocalFollows(s, Rtk, s.config.rtkOn, body, s.rtk, 0);
    hide RunLocal, Accepts;
  }

  /**
   The stages in order: RTK, Headroom, Caveman, Ponytail. With a hit of the cache the first two
   are those of another request's work.
   */
  ghost predicate Chain(s: Setup, cached: Cached, body: string, b2: string, b4: string) {
    var c := s.config;
    && (if cached.Hit? && UsesCache(c, body) then b2 == cached.body else exists b1 :: TwoFollow(c, body, b1, b2))
    && exists b3 :: MayFollow(c.checks, Caveman, c.cavemanOn, b2, b3)
                    && MayFollow(c.checks, Ponytail, c.ponytailOn, b3, b4)
  }

  lemma CompressedFollows(s: Setup, cached: Cached, body: string)
    ensures var b2 := Compressed(s, cached, body).after;
            if cached.Hit? && UsesCache(s.config, body) then b2 == cached.body
            else exists b1 :: TwoFollow(s.config, body, b1, b2)
  {
    var b1 := TwoStagesFollow(s, body);
    LocalFollows(s, Rtk, s.config.rtkOn, body, s.rtk, 0);
    hide RunLocal, RunHeadroom, Accepts;
    var first := RunLocal(s, Rtk, s.config.rtkOn, body, s.rtk, 0).after;
    assert TwoFollow(s.config, body, body, body) && TwoFollow(s.config, body, first, first);
  }

  /**
   For every behaviour of every stage, the runner, the clock and the cache: the result is the
   request itself, or has valid shape, passed the final check, and is the end of a chain in which
   each stage that is on contributed, in this order, its checked output or nothing; nothing at all
   happens to a request that is not eligible.
   */
  lemma NormalizeSafe(s: Setup, cached: Cached, body: string)
    ensures var result := Normalized(s, cached, body).0;
            && (result == body || (s.config.checks.shape(result) && s.config.checks.final(result)))
            && (result == body || exists b2 :: Chain(s, cached, body, b2, result))
            && (!Eligible(s.config, body) ==> result == body)
  {
    var result := Normalized(s, cached, body).0;
    if Eligible(s.config, body) && result != body {
      var so := Compressed(s, cached, body);
      CompressedFollows(s, cached, body);
      var c := s.config;
      hide Compressed, RunLocal, Accepts;
      if !so.escaped {
        LocalFollows(s, Caveman, c.cavemanOn, so.after, s.caveman, so.t);
        var r3 := RunLocal(s, Caveman, c.cavemanOn, so.after, s.caveman, so.t);
        LocalFollows(s, Ponytail, c.ponytailOn, r3.after, s.ponytail, r3.t);
        assert Chain(s, cached, body, so.after, Staged(s, cached, body).after);
      }
    }
  }

  /* ---------- what is recorded ---------- */

  function Times(records: seq<Record>, stage: Stage): nat {
    if records == [] then 0
    else Times(records[..|records| - 1], stage) + if records[|records| - 1].0 == stage then 1 else 0
  }

  lemma TimesMore(records: seq<Record>, r: Record, stage: Stage)
    ensures Times(records + [r], stage) == Times(records, stage) + if r.0 == stage then 1 else 0
  {
    assert (records + [r])[..|records|] == records;
  }

  lemma TimesFive(a: Outcome, b: Outcome, c: Outcome, d: Outcome, e: Outcome, stage: Stage)
    ensures Times([(Rtk, a), (Headroom, b), (Caveman, c), (Ponytail, d), (Whole, e)], stage) == 1
  {
    var none: seq<Record> := [];
    TimesMore(none, (Rtk, a), stage);
    TimesMore(none + [(Rtk, a)], (Headroom, b), stage);
    TimesMore(none + [(Rtk, a)] + [(Headroom, b)], (Caveman, c), stage);
    TimesMore(none + [(Rtk, a)] + [(Headroom, b)] + [(Caveman, c)], (Ponytail, d), stage);
    TimesMore(none + [(Rtk, a)] + [(Headroom, b)] + [(Caveman, c)] + [(Ponytail, d)], (Whole, e), stage);
    assert Times(none, stage) == 0;
    hide Times;
    var all := none + [(Rtk, a)] + [(Headroom, b)] + [(Caveman, c)] + [(Ponytail, d)] + [(Whole, e)];
    assert all == [(Rtk, a), (Headroom, b), (Caveman, c), (Ponytail, d), (Whole, e)];
  }

  /** No reading of the clock panics. */
  ghost predicate Steady(s: Setup) { forall t :: !s.clock(t) }

  lemma SteadyLocal(s: Setup, stage: Stage, enabled: bool, body: string, run: string -> Local, t: nat)
    requires Steady(s)
    ensures var r := RunLocal(s, stage, enabled, body, run, t);
            !r.escaped && exists outcome :: r.records == [(stage, outcome)]
  {
    hide Accepts;
    var r := RunLocal(s, stage, enabled, body, run, t);
    assert r.records == [(stage, r.records[0].1)];
  }

  lemma SteadyHeadroom(s: Setup, body: string, t: nat)
    requires Steady(s)
    ensures var r := RunHeadroom(s, body, t); !r.escaped && exists outcome :: r.records == [(Headroom, outcome)]
  {
    hide Accepts;
    var r := RunHeadroom(s, body, t);
    assert r.records == [(Headroom, r.records[0].1)];
  }

  /** With a clock that does not panic the work behind the cache cannot fail. */
  lemma SteadyWork(s: Setup, body: string)
    requires Steady(s)
    ensures var r := TwoStages(s, body);
            !r.escaped && exists a, b :: r.records == [(Rtk, a), (Headroom, b)]
  {
    var first := RunLocal(s, Rtk, s.config.rtkOn, body, s.rtk, 0);
    SteadyLocal(s, Rtk, s.config.rtkOn, body, s.rtk, 0);
    SteadyHeadroom(s, first.after, first.t);
    hide RunLocal, RunHeadroom;
    var a :| first.records == [(Rtk, a)];
    var b :| RunHeadroom(s, first.after, first.t).records == [(Headroom, b)];
    assert TwoStages(s, body).records == [(Rtk, a), (Headroom, b)];
  }

  lemma SteadyCompressed(s: Setup, cached: Cached, body: string)
    requires Steady(s) && !(UsesCache(s.config, body) && cached.HitFailed?)
    ensures var r := Compressed(s, cached, body);
            !r.escaped && exists a, b :: r.records == [(Rtk, a), (Headroom, b)]
  {
    SteadyWork(s, body);
    SteadyLocal(s, Rtk, s.config.rtkOn, body, s.rtk, 0);
    hide RunLocal, RunHeadroom, TwoStages;
    var r := Compressed(s, cached, body);
    var a :| RunLocal(s, Rtk, s.config.rtkOn, body, s.rtk, 0).records == [(Rtk, a)];
    if cached.Hit? && UsesCache(s.config, body) {
      assert r.records == [(Rtk, Bypassed), (Headroom, Bypassed)];
    } else if !UsesCache(s.config, body) {
      assert r.records == [(Rtk, a), (Headroom, Bypassed)];
    }
  }

  /**
   With a clock that does not panic, and a cache that hands on no failure, a request gets exactly
   one outcome for each of the five stages -- if and only if every stage is off, or it is eligible.
   */
  lemma OneOutcomeEach(s: Setup, cached: Cached, body: string)
    requires Steady(s) && !(UsesCache(s.config, body) && cached.HitFailed?)
    ensures (forall stage :: Times(Normalized(s, cached, body).1, stage) == 1)
            <==> AllOff(s.config) || Eligible(s.config, body)
  {
    var records := Normalized(s, cached, body).1;
    if AllOff(s.config) {
      forall stage ensures Times(records, stage) == 1 {
        TimesFive(Bypassed, Bypassed, Bypassed, Bypassed, Bypassed, stage);
      }
    } else if !Eligible(s.config, body) {
      assert records == [] + [(Whole, Bypassed)];
      TimesMore([], (Whole, Bypassed), Rtk);
    } else {
      EligibleRecords(s, cached, body);
    }
  }

  lemma EligibleRecords(s: Setup, cached: Cached, body: string)
    requires Eligible(s.config, body) && Steady(s) && !(UsesCache(s.config, body) && cached.HitFailed?)
    ensures forall stage :: Times(Normalized(s, cached, body).1, stage) == 1
  {
    var c, so := s.config, Compressed(s, cached, body);
    SteadyCompressed(s, cached, body);
    SteadyLocal(s, Caveman, c.cavemanOn, so.after, s.caveman, so.t);
    var third := RunLocal(s, Caveman, c.cavemanOn, so.after, s.caveman, so.t);
    SteadyLocal(s, Ponytail, c.ponytailOn, third.after, s.ponytail, third.t);
    var fourth := RunLocal(s, Ponytail, c.ponytailOn, third.after, s.ponytail, third.t);
    var records := Normalized(s, cached, body).1;
    hide Times, RunLocal, RunHeadroom, Compressed;
    var o1, o2 :| so.records == [(Rtk, o1), (Headroom, o2)];
    var o3 :| third.records == [(Caveman, o3)];
    var o4 :| fourth.records == [(Ponytail, o4)];
    var o5 := records[|records| - 1].1;
    assert records == [(Rtk, o1), (Headroom, o2), (Caveman, o3), (Ponytail, o4), (Whole, o5)];
    forall stage ensures Times(records, stage) == 1 { TimesFive(o1, o2, o3, o4, o5, stage); }
  }
}
