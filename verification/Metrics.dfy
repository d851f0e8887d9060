/** The registry of stage outcomes: bounded by route, and never out of balance. */
module Metrics {
  import opened Common

  datatype Stage = Rtk | Headroom | Caveman | Ponytail | Whole

  datatype Outcome = Executed | Bypassed | FailOpen | Timeout | Saturated

  datatype Format = OpenAI | OpenAIResponse | Codex | Claude | Gemini | Interactions | Antigravity | Other

  function KnownFormat(format: string): Format {
    if format == "openai" then OpenAI else if format == "openai-response" then OpenAIResponse
    else if format == "codex" then Codex else if format == "claude" then Claude else if format == "gemini" then Gemini
    else if format == "interactions" then Interactions else if format == "antigravity" then Antigravity
    else Other
  }

  type Cell = (Stage, Outcome)
  type Table = map<Cell, nat>
  type Key = (Format, Format)

  function At(t: Table, c: Cell): nat { if c in t then t[c] else 0 }

  function Added(t: Table, c: Cell): Table { t[c := At(t, c) + 1] }

  /** What is reported: a stage and an outcome; None for a name that is neither. */
  datatype Report = Report(stage: Option<Stage>, outcome: Option<Outcome>)

  /** The cell a report counts in; anything unknown is a pipeline that failed open. */
  function CellOf(r: Report): Cell {
    if r.stage.None? || r.outcome.None? then (Whole, FailOpen) else (r.stage.value, r.outcome.value)
  }

  /** A timeout and a saturated client also count as failing open. */
  function Counted(t: Table, r: Report): Table {
    var c := CellOf(r);
    if c.1.Timeout? || c.1.Saturated? then Added(Added(t, (c.0, FailOpen)), c) else Added(t, c)
  }

  function Gain(r: Report, c: Cell): nat {
    var d := CellOf(r);
    if c == d || (c == (d.0, FailOpen) && (d.1.Timeout? || d.1.Saturated?)) then 1 else 0
  }

  function CountedAll(t: Table, rs: seq<Report>): Table {
    if rs == [] then t else Counted(CountedAll(t, rs[..|rs| - 1]), rs[|rs| - 1])
  }

  function GainAll(rs: seq<Report>, c: Cell): nat {
    if rs == [] then 0 else GainAll(rs[..|rs| - 1], c) + Gain(rs[|rs| - 1], c)
  }

  lemma {:induction false} CountedGain(t: Table, rs: seq<Report>, c: Cell)
    ensures At(CountedAll(t, rs), c) == At(t, c) + GainAll(rs, c)
  {
    if rs != [] { CountedGain(t, rs[..|rs| - 1], c); }
  }

  /** Every stage fails open at least as often as it times out or is saturated. */
  predicate Balanced(t: Table) {
    forall s: Stage :: At(t, (s, FailOpen)) >= At(t, (s, Timeout)) + At(t, (s, Saturated))
  }

  lemma {:induction false} CountedBalanced(t: Table, rs: seq<Report>)
    requires Balanced(t)
    ensures Balanced(CountedAll(t, rs))
  {
    if rs != [] {
      CountedBalanced(t, rs[..|rs| - 1]);
      var u, r := CountedAll(t, rs[..|rs| - 1]), rs[|rs| - 1];
      forall s: Stage
        ensures At(Counted(u, r), (s, FailOpen)) >= At(Counted(u, r), (s, Timeout)) + At(Counted(u, r), (s, Saturated))
      {
        assert At(u, (s, FailOpen)) >= At(u, (s, Timeout)) + At(u, (s, Saturated));
      }
    }
  }

  /* ---------- routes ---------- */

  type Routes = map<Key, Table>

  ghost function Sum(m: Routes, c: Cell): nat {
    if m.Keys == {} then 0
    else
      var k := Pick(m.Keys);
      At(m[k], c) + Sum(m - {k}, c)
  }

  lemma {:induction false} SumRemove(m: Routes, k: Key, c: Cell)
    requires k in m
    ensures Sum(m, c) == At(m[k], c) + Sum(m - {k}, c)
    decreases |m|
  {
    hide At;
    var p := Pick(m.Keys);
    if p != k {
      SumRemove(m - {p}, k, c);
      SumRemove(m - {k}, p, c);
      assert m - {p} - {k} == m - {k} - {p};
    }
  }

  function TableAt(m: Routes, k: Key): Table { if k in m then m[k] else map[] }

  lemma SumSet(m: Routes, k: Key, t: Table, c: Cell)
    ensures Sum(m[k := t], c) == Sum(m, c) - At(TableAt(m, k), c) + At(t, c)
  {
    SumRemove(m[k := t], k, c);
    if k in m {
      SumRemove(m, k, c);
      assert m[k := t] - {k} == m - {k};
    } else {
      assert m[k := t] - {k} == m;
      assert At(map[], c) == 0;
    }
    hide Sum;
  }

  const FORMATS: set<Format> := {OpenAI, OpenAIResponse, Codex, Claude, Gemini, Interactions, Antigravity, Other}

  lemma EveryFormat(f: Format)
    ensures f in FORMATS
  {
    match f {
      case OpenAI => case OpenAIResponse => case Codex => case Claude =>
      case Gemini => case Interactions => case Antigravity => case Other =>
    }
  }

  lemma FormatsSize()
    ensures |FORMATS| == 8
  {
    assert FORMATS - {OpenAI, OpenAIResponse, Codex, Claude} == {Gemini, Interactions, Antigravity, Other};
    assert FORMATS == {OpenAI, OpenAIResponse, Codex, Claude} + {Gemini, Interactions, Antigravity, Other};
  }

  lemma FewRoutes(m: Routes)
    ensures |m| <= 64
  {
    FormatsSize();
    PairsSize(FORMATS, FORMATS);
    var all := set f, g | f in FORMATS && g in FORMATS :: (f, g);
    forall k | k in m.Keys ensures k in all {
      EveryFormat(k.0);
      EveryFormat(k.1);
      assert k == (k.0, k.1);
    }
    SubsetSize(m.Keys, all);
  }

  lemma {:induction false} PairsSize(a: set<Format>, b: set<Format>)
    ensures |set f, g | f in a && g in b :: (f, g)| == |a| * |b|
    decreases |a|
  {
    var pairs := set f, g | f in a && g in b :: (f, g);
    if a == {} {
      assert pairs == {};
    } else {
      var x := Pick(a);
      PairsSize(a - {x}, b);
      var rest, row := set f, g | f in a - {x} && g in b :: (f, g), set g | g in b :: (x, g);
      RowSize(x, b);
      assert pairs == rest + row && rest * row == {};
      assert |a| == |a - {x}| + 1;
    }
  }

  lemma {:induction false} RowSize(x: Format, b: set<Format>)
    ensures |set g | g in b :: (x, g)| == |b|
    decreases |b|
  {
    var row := set g | g in b :: (x, g);
    if b == {} {
      assert row == {};
    } else {
      var y := Pick(b);
      RowSize(x, b - {y});
      assert row == (set g | g in b - {y} :: (x, g)) + {(x, y)};
    }
  }

  /* ---------- calls in flight ---------- */

  type Inflight = map<nat, nat>

  function InflightAt(m: Inflight, g: nat): nat { if g in m then m[g] else 0 }

  datatype Registry = Registry(stages: Table, routes: Routes, current: nat, previous: nat, inflight: Inflight)

  const EMPTY: Registry := Registry(map[], map[], 0, 0, map[])

  function Recorded(r: Registry, rs: seq<Report>): Registry { r.(stages := CountedAll(r.stages, rs)) }

  function Routed(r: Registry, rs: seq<Report>, k: Key): Registry {
    r.(routes := r.routes[k := CountedAll(TableAt(r.routes, k), rs)])
  }

  function Published(r: Registry, g: nat): Registry {
    if r.current == g then r
    else
      var stale, next := r.previous, r.(previous := r.current, current := g);
      if stale != next.current && stale != next.previous && InflightAt(r.inflight, stale) == 0
      then next.(inflight := r.inflight - {stale}) else next
  }

  function Begun(r: Registry, g: nat): Registry { r.(inflight := r.inflight[g := InflightAt(r.inflight, g) + 1]) }

  function Ended(r: Registry, g: nat): Registry {
    var n := InflightAt(r.inflight, g);
    var inflight := if n > 0 then r.inflight[g := n - 1] else r.inflight;
    if InflightAt(inflight, g) == 0 && g != r.current && g != r.previous then r.(inflight := inflight - {g})
    else r.(inflight := inflight)
  }

  /* ---------- every interleaving ---------- */

  /** pending: reports counted in the totals and not yet by route; calls: the generations of the open calls. */
  datatype System = System(registry: Registry, pending: seq<(seq<Report>, Key)>, calls: seq<nat>)

  datatype Action =
    | Record(reports: seq<Report>, key: Key)
    | Route(i: nat)
    | Publish(generation: nat)
    | Begin(generation: nat)
    | End(i: nat)

  predicate CanHappen(s: System, a: Action) {
    match a
    case Route(i) => i < |s.pending|
    case End(i) => i < |s.calls|
    case _ => true
  }

  function Without<T>(s: seq<T>, i: nat): seq<T>
    requires i < |s|
  {
    s[..i] + s[i + 1..]
  }

  function Act(s: System, a: Action): System
    requires CanHappen(s, a)
  {
    match a
    case Record(rs, k) => s.(registry := Recorded(s.registry, rs), pending := s.pending + [(rs, k)])
    case Route(i) => s.(registry := Routed(s.registry, s.pending[i].0, s.pending[i].1),
                        pending := Without(s.pending, i))
    case Publish(g) => s.(registry := Published(s.registry, g))
    case Begin(g) => s.(registry := Begun(s.registry, g), calls := s.calls + [g])
    case End(i) => s.(registry := Ended(s.registry, s.calls[i]), calls := Without(s.calls, i))
  }

  function Run(actions: seq<Action>): Option<System> {
    if actions == [] then Some(System(EMPTY, [], []))
    else
      var s, a := Run(actions[..|actions| - 1]), actions[|actions| - 1];
      if s.None? || !CanHappen(s.value, a) then None else Some(Act(s.value, a))
  }

  function Owed(pending: seq<(seq<Report>, Key)>, c: Cell): nat {
    if pending == [] then 0 else GainAll(pending[0].0, c) + Owed(pending[1..], c)
  }

  lemma {:induction false} OwedParts(a: seq<(seq<Report>, Key)>, b: seq<(seq<Report>, Key)>, c: Cell)
    ensures Owed(a + b, c) == Owed(a, c) + Owed(b, c)
  {
    if a == [] {
      assert a + b == b;
    } else {
      assert (a + b)[1..] == a[1..] + b && (a + b)[0] == a[0];
      OwedParts(a[1..], b, c);
    }
  }

  lemma OwedWithout(p: seq<(seq<Report>, Key)>, i: nat, c: Cell)
    requires i < |p|
    ensures Owed(p, c) == Owed(Without(p, i), c) + GainAll(p[i].0, c)
  {
    OwedParts(p[..i], p[i + 1..], c);
    OwedParts(p[..i], [p[i]] + p[i + 1..], c);
    OwedParts([p[i]], p[i + 1..], c);
    assert p == p[..i] + ([p[i]] + p[i + 1..]);
    assert Owed([p[i]], c) == GainAll(p[i].0, c) + Owed([p[i]][1..], c);
  }

  function Open(calls: seq<nat>, g: nat): nat {
    if calls == [] then 0 else (if calls[0] == g then 1 else 0) + Open(calls[1..], g)
  }

  lemma {:induction false} OpenParts(a: seq<nat>, b: seq<nat>, g: nat)
    ensures Open(a + b, g) == Open(a, g) + Open(b, g)
  {
    if a == [] {
      assert a + b == b;
    } else {
      assert (a + b)[1..] == a[1..] + b && (a + b)[0] == a[0];
      OpenParts(a[1..], b, g);
    }
  }

  lemma OpenWithout(calls: seq<nat>, i: nat, g: nat)
    requires i < |calls|
    ensures Open(calls, g) == Open(Without(calls, i), g) + if calls[i] == g then 1 else 0
  {
    OpenParts(calls[..i], calls[i + 1..], g);
    OpenParts(calls[..i], [calls[i]] + calls[i + 1..], g);
    OpenParts([calls[i]], calls[i + 1..], g);
    assert calls == calls[..i] + ([calls[i]] + calls[i + 1..]);
    assert Open([calls[i]], g) == (if calls[i] == g then 1 else 0) + Open([calls[i]][1..], g);
  }

  ghost predicate Totals(s: System) {
    forall c :: At(s.registry.stages, c) == Sum(s.registry.routes, c) + Owed(s.pending, c)
  }

  predicate AllBalanced(r: Registry) {
    Balanced(r.stages) && forall k | k in r.routes :: Balanced(r.routes[k])
  }

  ghost predicate InflightOk(s: System) {
    && (forall g: nat :: InflightAt(s.registry.inflight, g) == Open(s.calls, g))
    && (forall g | g in s.registry.inflight ::
          s.registry.inflight[g] > 0 || g == s.registry.current || g == s.registry.previous)
  }

  ghost predicate Inv(s: System) { Totals(s) && AllBalanced(s.registry) && InflightOk(s) }

  lemma RecordKeeps(s: System, rs: seq<Report>, k: Key)
    requires Inv(s)
    ensures Inv(Act(s, Record(rs, k)))
  {
    hide Balanced, CountedAll, GainAll, At;
    var s' := Act(s, Record(rs, k));
    CountedBalanced(s.registry.stages, rs);
    forall c ensures At(s'.registry.stages, c) == Sum(s'.registry.routes, c) + Owed(s'.pending, c) {
      CountedGain(s.registry.stages, rs, c);
      OwedParts(s.pending, [(rs, k)], c);
      assert Owed([(rs, k)], c) == GainAll(rs, c) + Owed([(rs, k)][1..], c);
    }
  }

  lemma RouteKeeps(s: System, i: nat)
    requires Inv(s) && CanHappen(s, Route(i))
    ensures Inv(Act(s, Route(i)))
  {
    hide CountedAll, GainAll, At, Sum, Owed;
    var s' := Act(s, Route(i));
    var (rs, k) := s.pending[i];
    var t := TableAt(s.registry.routes, k);
    EmptyBalanced();
    CountedBalanced(t, rs);
    hide Balanced;
    forall c ensures At(s'.registry.stages, c) == Sum(s'.registry.routes, c) + Owed(s'.pending, c) {
      CountedGain(t, rs, c);
      SumSet(s.registry.routes, k, CountedAll(t, rs), c);
      OwedWithout(s.pending, i, c);
    }
  }

  lemma EmptyBalanced()
    ensures Balanced(map[])
  {
  }

  lemma PublishKeeps(s: System, g: nat)
    requires Inv(s)
    ensures Inv(Act(s, Publish(g)))
  {
    hide Totals, AllBalanced, Open;
    var s' := Act(s, Publish(g));
    assert Totals(s') by { SameTotals(s, s'); }
    assert AllBalanced(s'.registry) by { SameTables(s.registry, s'.registry); }
  }

  lemma SameTotals(s: System, t: System)
    requires Totals(s) && t.registry.stages == s.registry.stages && t.registry.routes == s.registry.routes
             && t.pending == s.pending
    ensures Totals(t)
  {
  }

  lemma SameTables(r: Registry, q: Registry)
    requires AllBalanced(r) && q.stages == r.stages && q.routes == r.routes
    ensures AllBalanced(q)
  {
  }

  lemma BeginKeeps(s: System, g: nat)
    requires Inv(s)
    ensures Inv(Act(s, Begin(g)))
  {
    hide Totals, AllBalanced;
    var s' := Act(s, Begin(g));
    SameTotals(s, s');
    SameTables(s.registry, s'.registry);
    forall h: nat ensures InflightAt(s'.registry.inflight, h) == Open(s'.calls, h) {
      OpenParts(s.calls, [g], h);
      assert Open([g], h) == (if g == h then 1 else 0) + Open([g][1..], h);
    }
    hide Open;
  }

  lemma EndKeeps(s: System, i: nat)
    requires Inv(s) && CanHappen(s, End(i))
    ensures Inv(Act(s, End(i)))
  {
    hide Totals, AllBalanced, Open;
    var s' := Act(s, End(i));
    SameTotals(s, s');
    SameTables(s.registry, s'.registry);
    forall h: nat ensures Open(s.calls, h) == Open(s'.calls, h) + if s.calls[i] == h then 1 else 0 {
      OpenWithout(s.calls, i, h);
    }
  }

  lemma {:induction false} RunInv(actions: seq<Action>)
    requires Run(actions).Some?
    ensures Inv(Run(actions).value)
  {
    if actions != [] {
      RunInv(actions[..|actions| - 1]);
      var s, a := Run(actions[..|actions| - 1]).value, actions[|actions| - 1];
      hide Inv, Act;
      match a
      case Record(rs, k) => RecordKeeps(s, rs, k);
      case Route(i) => RouteKeeps(s, i);
      case Publish(g) => PublishKeeps(s, g);
      case Begin(g) => BeginKeeps(s, g);
      case End(i) => EndKeeps(s, i);
    }
  }

  /**
   In every run: each total is the sum over the routes plus what is still to be routed, so the
   two agree whenever nothing is pending; there are at most 64 routes; failing open covers
   timeouts and saturation everywhere; and the calls in flight are exactly the open ones, counted
   only for generations that have some or are the current or previous one.
   */
  lemma Conserved(actions: seq<Action>)
    requires Run(actions).Some?
    ensures var s := Run(actions).value;
            && (forall c :: At(s.registry.stages, c) == Sum(s.registry.routes, c) + Owed(s.pending, c))
            && (s.pending == [] ==> forall c :: At(s.registry.stages, c) == Sum(s.registry.routes, c))
            && |s.registry.routes| <= 64
            && AllBalanced(s.registry) && InflightOk(s)
  {
    RunInv(actions);
    FewRoutes(Run(actions).value.registry.routes);
    hide Run, Sum, At, AllBalanced, InflightOk;
  }

  /** The guard against underflow is never used: a call that ends was counted. */
  lemma EndIsCounted(actions: seq<Action>, i: nat)
    requires Run(actions).Some? && CanHappen(Run(actions).value, End(i))
    ensures var s := Run(actions).value; InflightAt(s.registry.inflight, s.calls[i]) > 0
  {
    RunInv(actions);
    var s := Run(actions).value;
    OpenWithout(s.calls, i, s.calls[i]);
    hide Run, Open, Totals, AllBalanced;
  }

  /* ---------- what each counter counts ---------- */

  /**
   The report adds to this counter: it names this stage and outcome, or it timed out or was
   saturated at this stage and this is the fail-open counter; a report of an unknown stage or
   outcome adds to the pipeline's fail-open counter.
   */
  predicate AddsTo(r: Report, stage: Stage, outcome: Outcome) {
    if r.stage.None? || r.outcome.None? then stage.Whole? && outcome.FailOpen?
    else r.stage == Some(stage)
         && (r.outcome == Some(outcome)
             || (outcome.FailOpen? && (r.outcome == Some(Timeout) || r.outcome == Some(Saturated))))
  }

  function Adding(rs: seq<Report>, stage: Stage, outcome: Outcome): nat {
    if rs == [] then 0
    else (if AddsTo(rs[|rs| - 1], stage, outcome) then 1 else 0) + Adding(rs[..|rs| - 1], stage, outcome)
  }

  lemma {:induction false} GainIsAdding(rs: seq<Report>, stage: Stage, outcome: Outcome)
    ensures GainAll(rs, (stage, outcome)) == Adding(rs, stage, outcome)
  {
    if rs != [] { GainIsAdding(rs[..|rs| - 1], stage, outcome); }
  }

  /** The reports of a run that add to a counter, on every route or on one. */
  function Reported(actions: seq<Action>, key: Option<Key>, stage: Stage, outcome: Outcome): nat {
    if actions == [] then 0
    else
      var a := actions[|actions| - 1];
      (if a.Record? && (key.None? || key == Some(a.key)) then Adding(a.reports, stage, outcome) else 0)
      + Reported(actions[..|actions| - 1], key, stage, outcome)
  }

  /** What is still to be counted on one route. */
  function OwedTo(pending: seq<(seq<Report>, Key)>, k: Key, c: Cell): nat {
    if pending == [] then 0
    else (if pending[0].1 == k then GainAll(pending[0].0, c) else 0) + OwedTo(pending[1..], k, c)
  }

  lemma {:induction false} OwedToParts(a: seq<(seq<Report>, Key)>, b: seq<(seq<Report>, Key)>, k: Key, c: Cell)
    ensures OwedTo(a + b, k, c) == OwedTo(a, k, c) + OwedTo(b, k, c)
  {
    if a == [] {
      assert a + b == b;
    } else {
      assert (a + b)[1..] == a[1..] + b && (a + b)[0] == a[0];
      OwedToParts(a[1..], b, k, c);
    }
  }

  lemma OwedToOne(p: (seq<Report>, Key), k: Key, c: Cell)
    ensures OwedTo([p], k, c) == if p.1 == k then GainAll(p.0, c) else 0
  {
    assert [p][1..] == [];
  }

  lemma OwedToWithout(p: seq<(seq<Report>, Key)>, i: nat, k: Key, c: Cell)
    requires i < |p|
    ensures OwedTo(p, k, c) == OwedTo(Without(p, i), k, c) + if p[i].1 == k then GainAll(p[i].0, c) else 0
  {
    OwedToParts(p[..i], p[i + 1..], k, c);
    OwedToParts(p[..i], [p[i]] + p[i + 1..], k, c);
    OwedToParts([p[i]], p[i + 1..], k, c);
    OwedToOne(p[i], k, c);
    assert p == p[..i] + ([p[i]] + p[i + 1..]);
  }

  /** In every run each total counts the reports that were made for it. */
  lemma {:induction false} TotalsExact(actions: seq<Action>, stage: Stage, outcome: Outcome)
    requires Run(actions).Some?
    ensures At(Run(actions).value.registry.stages, (stage, outcome)) == Reported(actions, None, stage, outcome)
  {
    if actions != [] {
      var front, a := actions[..|actions| - 1], actions[|actions| - 1];
      TotalsExact(front, stage, outcome);
      hide CountedAll, At, Adding;
      if a.Record? {
        CountedGain(Run(front).value.registry.stages, a.reports, (stage, outcome));
        GainIsAdding(a.reports, stage, outcome);
      }
    } else {
      NothingCounted((stage, outcome));
    }
  }

  lemma NothingCounted(c: Cell)
    ensures At(map[], c) == 0
  {
  }

  /** And each counter of a route those made for that route, but for what is still to be counted there. */
  lemma {:induction false} RoutesExact(actions: seq<Action>, k: Key, stage: Stage, outcome: Outcome)
    requires Run(actions).Some?
    ensures var s := Run(actions).value;
            At(TableAt(s.registry.routes, k), (stage, outcome)) + OwedTo(s.pending, k, (stage, outcome))
            == Reported(actions, Some(k), stage, outcome)
  {
    var c: Cell := (stage, outcome);
    if actions != [] {
      var front, a := actions[..|actions| - 1], actions[|actions| - 1];
      RoutesExact(front, k, stage, outcome);
      hide CountedAll, At, Adding, OwedTo, GainAll, Published, Begun, Ended;
      var s := Run(front).value;
      match a
      case Record(rs, key) =>
        OwedToParts(s.pending, [(rs, key)], k, c);
        OwedToOne((rs, key), k, c);
        GainIsAdding(rs, stage, outcome);
      case Route(i) =>
        OwedToWithout(s.pending, i, k, c);
        CountedGain(TableAt(s.registry.routes, k), s.pending[i].0, c);
      case Publish(g) => SameRoutes(s.registry, g);
      case Begin(g) => SameRoutes(s.registry, g);
      case End(i) => SameRoutes(s.registry, s.calls[i]);
    } else {
      NothingCounted(c);
    }
  }

  lemma SameRoutes(r: Registry, g: nat)
    ensures Published(r, g).routes == r.routes && Begun(r, g).routes == r.routes && Ended(r, g).routes == r.routes
  {
  }

  /** A format's name. */
  function NameOf(f: Format): string {
    match f
    case OpenAI => "openai"
    case OpenAIResponse => "openai-response"
    case Codex => "codex"
    case Claude => "claude"
    case Gemini => "gemini"
    case Interactions => "interactions"
    case Antigravity => "antigravity"
    case Other => "other"
  }

  /** The seven names are told apart, and every other name is one format. */
  lemma FormatsExact(name: string)
    ensures KnownFormat(name) != Other <==>
              name in {"openai", "openai-response", "codex", "claude", "gemini", "interactions", "antigravity"}
    ensures KnownFormat(name) != Other ==> NameOf(KnownFormat(name)) == name
  {
  }
}
