/** Many requests at once: the normalizer with the cache between its calls. */
module PipelineRuns {
  import opened Common
  import opened Metrics
  import opened Pipeline
  import opened PipelineExact
  import opened DedupeKeys
  import Dedupe
  import DedupeRuns
  import Utf8

  /** A request under way: the configuration generation it acquired, what it asks, and how its stages behave. */
  datatype Call = Call(generation: nat, request: Request, setup: Setup, body: string)

  /** The requests are what their bodies say, and a generation has one configuration for a request. */
  ghost predicate Proper(calls: map<nat, Call>) {
    && (forall id | id in calls ::
          && Representable(calls[id].generation, calls[id].request)
          && calls[id].request.body == Utf8.Encoded(calls[id].body))
    && (forall i, k | i in calls && k in calls && calls[i].generation == calls[k].generation
                      && calls[i].request == calls[k].request :: calls[i].setup.config == calls[k].setup.config)
  }

  function KeyOf(c: Call): Bytes { Encoded(c.generation, c.request) }

  /** What the two cached stages give when this call runs them. */
  function Work(c: Call): Dedupe.Outcome {
    var r := TwoStages(c.setup, c.body);
    if r.escaped then Dedupe.Failed else Dedupe.Value(Utf8.Encoded(r.after))
  }

  /** Eligible calls look their own key up, and workers run the two stages on their own request. */
  predicate Faithful(calls: map<nat, Call>, a: DedupeRuns.Action) {
    match a
    case Arrive(id, key, _) =>
      && id in calls && key == KeyOf(calls[id])
      && Eligible(calls[id].setup.config, calls[id].body) && UsesCache(calls[id].setup.config, calls[id].body)
    case Finish(id, outcome, _) => id in calls && outcome == Work(calls[id])
    case Wake(_) => true
  }

  ghost predicate FaithfulRun(calls: map<nat, Call>, actions: seq<DedupeRuns.Action>) {
    DedupeRuns.Run(actions).Some? && forall k | 0 <= k < |actions| :: Faithful(calls, actions[k])
  }

  ghost predicate Owned(calls: map<nat, Call>, s: DedupeRuns.System) {
    forall id | id in s.callers ::
      && id in calls && s.callers[id].key == KeyOf(calls[id])
      && Eligible(calls[id].setup.config, calls[id].body) && UsesCache(calls[id].setup.config, calls[id].body)
      && (s.callers[id].Done? && s.callers[id].worker == id ==> s.callers[id].outcome == Work(calls[id]))
  }

  lemma StepOwned(calls: map<nat, Call>, s: DedupeRuns.System, a: DedupeRuns.Action)
    requires Owned(calls, s) && DedupeRuns.Inv(s) && DedupeRuns.CanHappen(s, a) && Faithful(calls, a)
    ensures Owned(calls, DedupeRuns.Act(s, a))
  {
    hide *;
    match a
    case Arrive(id, key, now) => ArriveOwned(calls, s, id, key, now);
    case Finish(id, outcome, now) => FinishOwned(calls, s, id, outcome, now);
    case Wake(id) => WakeOwned(calls, s, id);
  }

  lemma ArriveOwned(calls: map<nat, Call>, s: DedupeRuns.System, id: nat, key: Bytes, now: int)
    requires var a := DedupeRuns.Arrive(id, key, now);
             Owned(calls, s) && DedupeRuns.CanHappen(s, a) && Faithful(calls, a)
    ensures Owned(calls, DedupeRuns.Act(s, DedupeRuns.Arrive(id, key, now)))
  {
    hide KeyOf, Eligible, UsesCache, Work, Dedupe.Enter, Dedupe.Leave, DedupeRuns.Inv;
  }

  lemma FinishOwned(calls: map<nat, Call>, s: DedupeRuns.System, id: nat, outcome: Dedupe.Outcome, now: int)
    requires var a := DedupeRuns.Finish(id, outcome, now);
             Owned(calls, s) && DedupeRuns.CanHappen(s, a) && Faithful(calls, a)
    ensures Owned(calls, DedupeRuns.Act(s, DedupeRuns.Finish(id, outcome, now)))
  {
    hide KeyOf, Eligible, UsesCache, Work, Dedupe.Enter, Dedupe.Leave, DedupeRuns.Inv;
  }

  lemma WakeOwned(calls: map<nat, Call>, s: DedupeRuns.System, id: nat)
    requires Owned(calls, s) && DedupeRuns.Inv(s) && DedupeRuns.CanHappen(s, DedupeRuns.Wake(id))
    ensures Owned(calls, DedupeRuns.Act(s, DedupeRuns.Wake(id)))
  {
    hide KeyOf, Eligible, UsesCache, Work, Dedupe.Enter, Dedupe.Leave, Dedupe.CacheInv;
    assert DedupeRuns.CallerOk(s, id);
  }

  lemma {:induction false} RunOwned(calls: map<nat, Call>, actions: seq<DedupeRuns.Action>)
    requires FaithfulRun(calls, actions)
    ensures Owned(calls, DedupeRuns.Run(actions).value)
  {
    if actions != [] {
      var front, a := actions[..|actions| - 1], actions[|actions| - 1];
      hide Faithful, DedupeRuns.Act, DedupeRuns.CanHappen, DedupeRuns.Inv;
      assert FaithfulRun(calls, front);
      RunOwned(calls, front);
      DedupeRuns.RunInv(front);
      hide Owned;
      assert Faithful(calls, a);
      StepOwned(calls, DedupeRuns.Run(front).value, a);
    }
  }

  /** A result is that of RTK and Headroom run on an equal request of the same generation. */
  lemma EqualRequestsShare(calls: map<nat, Call>, actions: seq<DedupeRuns.Action>, id: nat)
    requires Proper(calls) && FaithfulRun(calls, actions)
    requires id in DedupeRuns.Run(actions).value.callers && DedupeRuns.Run(actions).value.callers[id].Done?
    ensures var c := DedupeRuns.Run(actions).value.callers[id];
            && id in calls && c.worker in calls && c.outcome == Work(calls[c.worker])
            && calls[c.worker].generation == calls[id].generation && calls[c.worker].request == calls[id].request
            && calls[c.worker].body == calls[id].body && calls[c.worker].setup.config == calls[id].setup.config
            && Eligible(calls[id].setup.config, calls[id].body) && UsesCache(calls[id].setup.config, calls[id].body)
  {
    RunOwned(calls, actions);
    DedupeRuns.AgreesWithDirectWork(actions);
    var s := DedupeRuns.Run(actions).value;
    var w := s.callers[id].worker;
    hide Work, Eligible, UsesCache, Encoded, Representable, DedupeRuns.Run;
    assert w in s.callers && s.callers[w].worker == w;
    EncodedUnique(calls[w].generation, calls[w].request, calls[id].generation, calls[id].request);
    Utf8.EncodedUnique(calls[w].body, calls[id].body);
  }

  /** What the cache hands a finished caller, in the normalizer's terms. */
  function CachedFor(calls: map<nat, Call>, id: nat, c: DedupeRuns.Caller): Cached
    requires c.Done? && c.worker in calls
  {
    if c.worker == id then Own
    else if c.outcome.Failed? then HitFailed
    else Hit(TwoStages(calls[c.worker].setup, calls[c.worker].body).after)
  }

  /** Four stages in order on one body, each that is on adding its checked output or nothing. */
  ghost predicate FourFollow(c: Config, body: string, b2: string, b4: string) {
    && (exists b1 :: TwoFollow(c, body, b1, b2))
    && exists b3 :: MayFollow(c.checks, Caveman, c.cavemanOn, b2, b3)
                    && MayFollow(c.checks, Ponytail, c.ponytailOn, b3, b4)
  }

  /**
   In every interleaving of requests: what a request comes back as is itself, or of valid shape and
   the end of the four stages in order on its own body, the first two run by itself or by an equal
   request of the same generation.
   */
  lemma RunsNormalize(calls: map<nat, Call>, actions: seq<DedupeRuns.Action>, id: nat)
    requires Proper(calls) && FaithfulRun(calls, actions)
    requires id in DedupeRuns.Run(actions).value.callers && DedupeRuns.Run(actions).value.callers[id].Done?
    ensures id in calls && DedupeRuns.Run(actions).value.callers[id].worker in calls
    ensures var c := calls[id];
            var result := Normalized(c.setup, CachedFor(calls, id, DedupeRuns.Run(actions).value.callers[id]),
                                     c.body).0;
            result == c.body
            || (c.setup.config.checks.shape(result) && c.setup.config.checks.final(result)
                && exists b2 :: FourFollow(c.setup.config, c.body, b2, result))
  {
    EqualRequestsShare(calls, actions, id);
    var caller := DedupeRuns.Run(actions).value.callers[id];
    var c, w := calls[id], calls[caller.worker];
    var cached := CachedFor(calls, id, caller);
    hide DedupeRuns.Run, FaithfulRun, Proper, Normalized, Eligible, UsesCache, Work, TwoStages, TwoFollow, MayFollow;
    NormalizeSafe(c.setup, cached, c.body);
    var result := Normalized(c.setup, cached, c.body).0;
    if result != c.body {
      var b2 :| Chain(c.setup, cached, c.body, b2, result);
      if cached.Hit? {
        var b1 := TwoStagesFollow(w.setup, w.body);
      }
      assert FourFollow(c.setup.config, c.body, b2, result);
    }
  }

  /** And if no clock panics, it has exactly one outcome for each of the five stages. */
  lemma RunsRecordOnce(calls: map<nat, Call>, actions: seq<DedupeRuns.Action>, id: nat)
    requires Proper(calls) && FaithfulRun(calls, actions) && forall k | k in calls :: Steady(calls[k].setup)
    requires id in DedupeRuns.Run(actions).value.callers && DedupeRuns.Run(actions).value.callers[id].Done?
    ensures id in calls && DedupeRuns.Run(actions).value.callers[id].worker in calls
    ensures DedupeRuns.Run(actions).value.callers[id].outcome.Value?
    ensures var cached := CachedFor(calls, id, DedupeRuns.Run(actions).value.callers[id]);
            forall stage :: Times(Normalized(calls[id].setup, cached, calls[id].body).1, stage) == 1
  {
    EqualRequestsShare(calls, actions, id);
    var caller := DedupeRuns.Run(actions).value.callers[id];
    var cached := CachedFor(calls, id, caller);
    hide DedupeRuns.Run, FaithfulRun, Proper, Normalized, Eligible, UsesCache, TwoStages, Times, Steady;
    SteadyWork(calls[caller.worker].setup, calls[caller.worker].body);
    assert Steady(calls[id].setup);
    OneOutcomeEach(calls[id].setup, cached, calls[id].body);
  }

  /**
   And exactly: it is what both prompt stages of its own make of the work that it or an equal
   request did on the same bytes, if that can be sent, and itself otherwise.
   */
  lemma RunsExact(calls: map<nat, Call>, actions: seq<DedupeRuns.Action>, id: nat)
    requires Proper(calls) && FaithfulRun(calls, actions) && forall k | k in calls :: Steady(calls[k].setup)
    requires id in DedupeRuns.Run(actions).value.callers && DedupeRuns.Run(actions).value.callers[id].Done?
    ensures id in calls && DedupeRuns.Run(actions).value.callers[id].worker in calls
    ensures var caller := DedupeRuns.Run(actions).value.callers[id];
            var s, w, body := calls[id].setup, calls[caller.worker].setup, calls[id].body;
            exists b2, b3, b4, o3, o4 ::
              && Worked(w, body, b2)
              && LocalTurn(s.config.checks, Caveman, s.config.cavemanOn, s.caveman(b2), b2, b3, o3)
              && LocalTurn(s.config.checks, Ponytail, s.config.ponytailOn, s.ponytail(b3), b3, b4, o4)
              && Normalized(s, CachedFor(calls, id, caller), body).0
                 == if s.config.checks.shape(b4) && s.config.checks.final(b4) then b4 else body
  {
    EqualRequestsShare(calls, actions, id);
    var caller := DedupeRuns.Run(actions).value.callers[id];
    var c, w := calls[id], calls[caller.worker];
    var cached := CachedFor(calls, id, caller);
    hide DedupeRuns.Run, FaithfulRun, Proper, Normalized, TwoStages, Times, Steady, LocalTurn, RemoteTurn, Ends,
         KeyOf;
    assert Steady(c.setup) && Steady(w.setup);
    SteadyWork(w.setup, w.body);
    WorkedExact(w.setup, w.body);
    NormalizeExact(c.setup, cached, c.body);
    var b2, b3, b4, reports :| Ends(c.setup, cached, c.body, b2, b3, b4, reports)
      && Normalized(c.setup, cached, c.body).0
         == if c.setup.config.checks.shape(b4) && c.setup.config.checks.final(b4) then b4 else c.body;
    EndWorked(c.setup, w.setup, cached, c.body, b2, b3, b4, reports);
  }

  lemma EndWorked(s: Setup, w: Setup, cached: Cached, body: string, b2: string, b3: string, b4: string,
                  reports: seq<Record>)
    requires Ends(s, cached, body, b2, b3, b4, reports) && UsesCache(s.config, body) && s.config == w.config
    requires (cached == Own && w == s) || cached == Hit(TwoStages(w, body).after)
    requires Worked(w, body, TwoStages(w, body).after)
    ensures Worked(w, body, b2)
    ensures exists o3, o4 ::
              && LocalTurn(s.config.checks, Caveman, s.config.cavemanOn, s.caveman(b2), b2, b3, o3)
              && LocalTurn(s.config.checks, Ponytail, s.config.ponytailOn, s.ponytail(b3), b3, b4, o4)
  {
    hide TwoStages, LocalTurn, RemoteTurn;
  }
}
