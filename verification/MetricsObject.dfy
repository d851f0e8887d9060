/** The metrics registry: each method is what the source does while it holds the lock. */
module MetricsObject {
  import opened Common
  import opened Metrics

  class MetricsRegistry {
    var stages: Table
    var routes: Routes
    var current: nat
    var previous: nat
    var inflight: Inflight

    ghost function Model(): Registry
      reads this
    {
      Registry(stages, routes, current, previous, inflight)
    }

    constructor ()
      ensures Model() == EMPTY
    {
      stages, routes, current, previous, inflight := map[], map[], 0, 0, map[];
    }

    method Record(report: Report)
      modifies this`stages
      ensures Model() == Recorded(old(Model()), [report])
    {
      CountedOne(stages, report);
      stages := Count(stages, report);
    }

    static method Count(t: Table, report: Report) returns (counted: Table)
      ensures counted == Counted(t, report)
    {
      var cell := if report.stage.None? || report.outcome.None? then (Whole, FailOpen)
                    else (report.stage.value, report.outcome.value);
      counted := t;
      if cell.1.Timeout? || cell.1.Saturated? {
        counted := counted[(cell.0, FailOpen) := At(counted, (cell.0, FailOpen)) + 1];
      }
      counted := counted[cell := At(counted, cell) + 1];
    }

    static method CountBypassed(t: Table) returns (counted: Table)
      ensures counted == CountedAll(t, ALL_BYPASSED)
    {
      counted := t;
      var order := ALL_BYPASSED;
      for i := 0 to |order|
        invariant counted == CountedAll(t, order[..i])
      {
        counted := Count(counted, order[i]);
        assert order[..i + 1][..i] == order[..i];
      }
      assert order[..|order|] == order;
    }

    method RecordAllBypassed()
      modifies this`stages
      ensures Model() == Recorded(old(Model()), ALL_BYPASSED)
    {
      stages := CountBypassed(stages);
    }

    method RecordRoute(report: Report, from: string, to: string)
      modifies this`routes
      ensures Model() == Routed(old(Model()), [report], (KnownFormat(from), KnownFormat(to)))
    {
      var key := (KnownFormat(from), KnownFormat(to));
      var projection := Count(TableAt(routes, key), report);
      CountedOne(TableAt(routes, key), report);
      routes := routes[key := projection];
    }

    method RecordAllBypassedRoute(from: string, to: string)
      modifies this`routes
      ensures Model() == Routed(old(Model()), ALL_BYPASSED, (KnownFormat(from), KnownFormat(to)))
    {
      var key := (KnownFormat(from), KnownFormat(to));
      var projection := CountBypassed(TableAt(routes, key));
      routes := routes[key := projection];
    }

    method PublishGeneration(generation: nat)
      modifies this`current, this`previous, this`inflight
      ensures Model() == Published(old(Model()), generation)
    {
      if current == generation { return; }
      var stale := previous;
      previous := current;
      current := generation;
      if stale != current && stale != previous && InflightAt(inflight, stale) == 0 { inflight := inflight - {stale}; }
    }

    method Begin(generation: nat)
      modifies this`inflight
      ensures Model() == Begun(old(Model()), generation)
    {
      inflight := inflight[generation := InflightAt(inflight, generation) + 1];
    }

    method End(generation: nat)
      modifies this`inflight
      ensures Model() == Ended(old(Model()), generation)
    {
      if InflightAt(inflight, generation) > 0 {
        inflight := inflight[generation := InflightAt(inflight, generation) - 1];
      }
      if InflightAt(inflight, generation) == 0 && generation != current && generation != previous {
        inflight := inflight - {generation};
      }
    }
  }

  lemma CountedOne(t: Table, report: Report)
    ensures CountedAll(t, [report]) == Counted(t, report)
  {
    assert [report][..0] == [];
    assert CountedAll(t, []) == t;
  }

  const ALL_BYPASSED: seq<Report> := [
    Report(Some(Rtk), Some(Bypassed)), Report(Some(Headroom), Some(Bypassed)), Report(Some(Caveman), Some(Bypassed)),
    Report(Some(Ponytail), Some(Bypassed)), Report(Some(Whole), Some(Bypassed))]
}
