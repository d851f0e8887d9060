/** The circuit breaker of the Headroom client and the calls that go through it. */
module Breaker {
  import opened Common

  const SECOND: int := 1_000_000_000
  const FAILURE_WINDOW: int := 60 * SECOND
  const CIRCUIT_OPEN_DURATION: int := 60 * SECOND

  /** openUntil is None for the zero time. */
  datatype Circuit = Circuit(streak: nat, failures: seq<int>, openUntil: Option<int>, probing: bool)

  datatype Phase = Closed | Open | HalfOpen

  function PhaseOf(c: Circuit, now: int): Phase {
    match c.openUntil
    case None => Closed
    case Some(u) => if c.probing || now >= u then HalfOpen else Open
  }

  /** The failures that are not before the cutoff. */
  function Kept(fs: seq<int>, cutoff: int): (ks: seq<int>)
    ensures |ks| <= |fs|
  {
    if fs == [] then []
    else Kept(fs[..|fs| - 1], cutoff) + if fs[|fs| - 1] >= cutoff then [fs[|fs| - 1]] else []
  }

  datatype Grant = Denied | Granted(probe: bool)

  function Begun(c: Circuit, now: int): (Circuit, Grant) {
    match PhaseOf(c, now)
    case Closed => (c, Granted(false))
    case Open => (c, Denied)
    case HalfOpen => if c.probing then (c, Denied) else (c.(probing := true), Granted(true))
  }

  function Cancelled(c: Circuit, probe: bool): Circuit {
    if probe then c.(probing := false) else c
  }

  function Finished(c: Circuit, now: int, probe: bool, success: bool): Circuit {
    if probe then
      if success then Circuit(0, [], None, false)
      else c.(probing := false, openUntil := Some(now + CIRCUIT_OPEN_DURATION))
    else if success then c.(streak := 0)
    else
      var failures := Kept(c.failures, now - FAILURE_WINDOW) + [now];
      if c.streak + 1 >= 3 || |failures| >= 5 then
        Circuit(c.streak + 1, failures, Some(now + CIRCUIT_OPEN_DURATION), false)
      else c.(streak := c.streak + 1, failures := failures)
  }

  class CircuitBreaker {
    var consecutiveFailures: nat
    var failures: seq<int>
    var openUntil: Option<int>
    var halfOpenInFlight: bool

    function Model(): Circuit
      reads this
    {
      Circuit(consecutiveFailures, failures, openUntil, halfOpenInFlight)
    }

    constructor ()
      ensures Model() == Circuit(0, [], None, false)
    {
      consecutiveFailures, failures, openUntil, halfOpenInFlight := 0, [], None, false;
    }

    method State(now: int) returns (p: Phase)
      ensures p == PhaseOf(Model(), now)
    {
      if openUntil.None? { return Closed; }
      if halfOpenInFlight || !(now < openUntil.value) { return HalfOpen; }
      return Open;
    }

    method Begin(now: int) returns (grant: Grant)
      modifies this
      ensures (Model(), grant) == Begun(old(Model()), now)
    {
      if openUntil.None? { return Granted(false); }
      if now < openUntil.value || halfOpenInFlight { return Denied; }
      halfOpenInFlight := true;
      return Granted(true);
    }

    method Cancel(probe: bool)
      modifies this
      ensures Model() == Cancelled(old(Model()), probe)
    {
      if !probe { return; }
      halfOpenInFlight := false;
    }

    method Finish(now: int, probe: bool, success: bool)
      modifies this
      ensures Model() == Finished(old(Model()), now, probe, success)
    {
      if probe {
        halfOpenInFlight := false;
        if success {
          openUntil := None;
          consecutiveFailures := 0;
          failures := [];
          return;
        }
        openUntil := Some(now + CIRCUIT_OPEN_DURATION);
        return;
      }
      if success {
        consecutiveFailures := 0;
        return;
      }
      var kept := Compact(now - FAILURE_WINDOW);
      failures := failures[..kept] + [now];
      consecutiveFailures := consecutiveFailures + 1;
      if consecutiveFailures >= 3 || |failures| >= 5 {
        openUntil := Some(now + CIRCUIT_OPEN_DURATION);
        halfOpenInFlight := false;
      }
    }

    /** Moves the recent failures to the front of the same storage; kept is how many there are. */
    method Compact(cutoff: int) returns (kept: nat)
      modifies this`failures
      ensures kept <= |failures| && failures[..kept] == Kept(old(failures), cutoff)
    {
      kept := 0;
      for i := 0 to |failures|
        invariant kept <= i && |failures| == |old(failures)|
        invariant failures[i..] == old(failures)[i..]
        invariant failures[..kept] == Kept(old(failures)[..i], cutoff)
      {
        assert old(failures)[..i + 1][..i] == old(failures)[..i];
        assert failures[i] == failures[i..][0] == old(failures)[i..][0] == old(failures)[i];
        assert failures[i + 1..] == failures[i..][1..] && old(failures)[i + 1..] == old(failures)[i..][1..];
        if failures[i] >= cutoff {
          failures := failures[kept := failures[i]];
          kept := kept + 1;
        }
      }
      assert old(failures)[..|old(failures)|] == old(failures);
    }
  }

  /* ---------- all interleavings of calls ---------- */

  /** A call has begun and waits for the one slot, runs in it, or has finished and still holds it. */
  datatype Stage = Waiting | Running | Leaving
  datatype Call = Call(probe: bool, began: int, stage: Stage)
  datatype Event = Event(time: int, probe: bool, success: bool)

  /** log: every finished call, in order. */
  datatype System = System(circuit: Circuit, calls: map<nat, Call>, clock: int, log: seq<Event>)

  datatype Action =
    | Begin(id: nat, time: int)
    | Acquire(id: nat)
    | Cancel(id: nat)
    | Finish(id: nat, time: int, success: bool)
    | Release(id: nat)

  predicate Outstanding(s: System, id: nat) { id in s.calls && s.calls[id].stage != Leaving }

  predicate SlotFree(s: System) { forall id | id in s.calls :: s.calls[id].stage == Waiting }

  /** No outstanding call is as old as the window. */
  predicate Timely(s: System, time: int) {
    forall id | id in s.calls && Outstanding(s, id) :: time - s.calls[id].began < FAILURE_WINDOW
  }

  predicate CanHappen(s: System, a: Action) {
    match a
    case Begin(id, time) => id !in s.calls && time >= s.clock
    case Acquire(id) => id in s.calls && s.calls[id].stage == Waiting && SlotFree(s)
    case Cancel(id) => id in s.calls && s.calls[id].stage == Waiting
    case Finish(id, time, _) => id in s.calls && s.calls[id].stage == Running && time >= s.clock
    case Release(id) => id in s.calls && s.calls[id].stage == Leaving
  }

  /** The timing assumption: calls end within the window. */
  predicate InTime(s: System, a: Action) {
    match a
    case Begin(_, time) => Timely(s, time)
    case Finish(_, time, _) => Timely(s, time)
    case _ => true
  }

  function Act(s: System, a: Action): System
    requires CanHappen(s, a)
  {
    match a
    case Begin(id, time) =>
      var (c, grant) := Begun(s.circuit, time);
      var calls := if grant.Granted? then s.calls[id := Call(grant.probe, time, Waiting)] else s.calls;
      System(c, calls, time, s.log)
    case Acquire(id) => s.(calls := s.calls[id := s.calls[id].(stage := Running)])
    case Cancel(id) => s.(circuit := Cancelled(s.circuit, s.calls[id].probe), calls := s.calls - {id})
    case Finish(id, time, success) =>
      System(Finished(s.circuit, time, s.calls[id].probe, success),
             s.calls[id := s.calls[id].(stage := Leaving)], time,
             s.log + [Event(time, s.calls[id].probe, success)])
    case Release(id) => s.(calls := s.calls - {id})
  }

  const FRESH: System := System(Circuit(0, [], None, false), map[], 0, [])

  /** The state after a run; None when some action could not happen. */
  function Run(actions: seq<Action>): Option<System> {
    if actions == [] then Some(FRESH)
    else
      var s, a := Run(actions[..|actions| - 1]), actions[|actions| - 1];
      if s.None? || !CanHappen(s.value, a) then None else Some(Act(s.value, a))
  }

  predicate TimelyRun(actions: seq<Action>) {
    actions == [] ||
    var s, a := Run(actions[..|actions| - 1]), actions[|actions| - 1];
    TimelyRun(actions[..|actions| - 1]) && s.Some? && CanHappen(s.value, a) && InTime(s.value, a)
  }

  /* ---------- at most one probe, and alone ---------- */

  ghost predicate Exclusive(s: System) {
    && (s.circuit.probing <==> exists id :: Outstanding(s, id) && s.calls[id].probe)
    && (forall id, k | Outstanding(s, id) && s.calls[id].probe && Outstanding(s, k) :: k == id)
  }

  ghost predicate Inv(s: System) {
    && Exclusive(s)
    && (s.circuit.openUntil.None? ==>
          !s.circuit.probing && s.circuit.streak < 3 && |s.circuit.failures| < 5)
    && (s.circuit.openUntil.Some? ==>
          forall id | Outstanding(s, id) && !s.calls[id].probe ::
            s.calls[id].began + CIRCUIT_OPEN_DURATION <= s.circuit.openUntil.value)
    && (forall id | id in s.calls :: s.calls[id].began <= s.clock)
  }

  lemma BeginKeeps(s: System, a: Action)
    requires Inv(s) && a.Begin? && CanHappen(s, a) && InTime(s, a)
    ensures Inv(Act(s, a))
  {
    var s' := Act(s, a);
    forall id | id in s.calls ensures id in s'.calls && s'.calls[id] == s.calls[id] {}
    if Begun(s.circuit, a.time).1 == Granted(true) {
      assert forall id :: !Outstanding(s, id);
      assert Outstanding(s', a.id);
    } else {
      assert forall id | Outstanding(s', id) :: id == a.id || Outstanding(s, id);
    }
  }

  lemma CancelKeeps(s: System, a: Action)
    requires Inv(s) && (a.Cancel? || a.Release? || a.Acquire?) && CanHappen(s, a)
    ensures Inv(Act(s, a))
  {
    var s' := Act(s, a);
    if a.Acquire? {
      assert forall id :: Outstanding(s', id) <==> Outstanding(s, id);
    } else if a.Cancel? {
      assert Outstanding(s, a.id);
      assert forall id :: Outstanding(s', id) <==> Outstanding(s, id) && id != a.id;
    } else {
      assert forall id :: Outstanding(s', id) <==> Outstanding(s, id);
    }
  }

  lemma FinishKeeps(s: System, a: Action)
    requires Inv(s) && a.Finish? && CanHappen(s, a) && InTime(s, a)
    ensures Inv(Act(s, a))
  {
    var s' := Act(s, a);
    assert Outstanding(s, a.id);
    assert forall id :: Outstanding(s', id) <==> Outstanding(s, id) && id != a.id;
    assert forall id | Outstanding(s', id) :: s'.calls[id] == s.calls[id];
    hide Kept;
  }

  lemma {:induction false} RunInv(actions: seq<Action>)
    requires TimelyRun(actions)
    ensures Run(actions).Some? && Inv(Run(actions).value)
  {
    if actions != [] {
      RunInv(actions[..|actions| - 1]);
      var s, a := Run(actions[..|actions| - 1]).value, actions[|actions| - 1];
      match a
      case Begin(_, _) => BeginKeeps(s, a);
      case Finish(_, _, _) => FinishKeeps(s, a);
      case _ => CancelKeeps(s, a);
    }
  }

  /**
   In every run whose calls each end within 60 s: while a probe is outstanding no other call
   is, the flag is up exactly then, and a closed circuit is below both thresholds.
   */
  lemma HalfOpenExclusive(actions: seq<Action>)
    requires TimelyRun(actions)
    ensures var s := Run(actions).value;
            && Run(actions).Some? && Exclusive(s)
            && (s.circuit.openUntil.None? ==> s.circuit.streak < 3 && |s.circuit.failures| < 5 && !s.circuit.probing)
  {
    RunInv(actions);
  }

  /* ---------- exactly when probes are alone, timely or not ---------- */

  /** A probe is let in while another call is still out. */
  ghost predicate Crowded(s: System, a: Action) {
    a.Begin? && Begun(s.circuit, a.time).1 == Granted(true) && exists id :: Outstanding(s, id)
  }

  ghost predicate NeverCrowded(actions: seq<Action>)
    requires Run(actions).Some?
  {
    actions == [] ||
    (NeverCrowded(actions[..|actions| - 1]) && !Crowded(Run(actions[..|actions| - 1]).value, actions[|actions| - 1]))
  }

  /** Exclusive after every prefix of the run. */
  ghost predicate AlwaysExclusive(actions: seq<Action>)
    requires Run(actions).Some?
  {
    Exclusive(Run(actions).value) && (actions == [] || AlwaysExclusive(actions[..|actions| - 1]))
  }

  lemma StepExclusive(s: System, a: Action)
    requires Exclusive(s) && (s.circuit.probing ==> s.circuit.openUntil.Some?) && CanHappen(s, a)
    ensures Exclusive(Act(s, a)) <==> !Crowded(s, a)
    ensures Exclusive(Act(s, a)) ==> var c := Act(s, a).circuit; c.probing ==> c.openUntil.Some?
  {
    hide Kept;
    var s' := Act(s, a);
    match a
    case Begin(id, time) =>
      forall k | k in s.calls ensures k in s'.calls && s'.calls[k] == s.calls[k] {}
      if Begun(s.circuit, time).1 == Granted(true) {
        assert Outstanding(s', id) && s'.calls[id].probe;
        forall k | Outstanding(s, k) ensures Outstanding(s', k) && k != id {}
        assert forall k | Outstanding(s', k) :: k == id || Outstanding(s, k);
      } else {
        assert forall k | Outstanding(s', k) && s'.calls[k].probe :: Outstanding(s, k);
        assert forall k | Outstanding(s, k) :: Outstanding(s', k);
      }
    case Acquire(id) => assert forall k :: Outstanding(s', k) <==> Outstanding(s, k);
    case Cancel(id) =>
      assert Outstanding(s, id);
      assert forall k :: Outstanding(s', k) <==> Outstanding(s, k) && k != id;
    case Finish(id, _, _) =>
      assert Outstanding(s, id);
      assert forall k :: Outstanding(s', k) <==> Outstanding(s, k) && k != id;
    case Release(id) => assert forall k :: Outstanding(s', k) <==> Outstanding(s, k);
  }

  /**
   With calls of any length, a run is exclusive throughout if and only if it never lets a probe in
   beside another call.
   */
  lemma {:induction false} ExclusiveExactly(actions: seq<Action>)
    requires Run(actions).Some?
    ensures AlwaysExclusive(actions) <==> NeverCrowded(actions)
    ensures AlwaysExclusive(actions) ==> var c := Run(actions).value.circuit; c.probing ==> c.openUntil.Some?
  {
    hide Exclusive, Crowded, Act;
    if actions == [] {
      FreshExclusive();
    } else {
      var front, a := actions[..|actions| - 1], actions[|actions| - 1];
      ExclusiveExactly(front);
      if AlwaysExclusive(front) { OneMore(front, a); }
    }
  }

  lemma OneMore(actions: seq<Action>, a: Action)
    requires Run(actions).Some? && AlwaysExclusive(actions) && CanHappen(Run(actions).value, a)
    requires var c := Run(actions).value.circuit; c.probing ==> c.openUntil.Some?
    ensures var s := Run(actions).value;
            && (Exclusive(Act(s, a)) <==> !Crowded(s, a))
            && (Exclusive(Act(s, a)) ==> var c := Act(s, a).circuit; c.probing ==> c.openUntil.Some?)
  {
    hide Exclusive, Crowded, Act, CanHappen, Run;
    StepExclusive(Run(actions).value, a);
  }

  lemma FreshExclusive()
    ensures Exclusive(FRESH) && !FRESH.circuit.probing
  {
  }

  /* ---------- the breaker is a summary of its history ---------- */

  /** Times of the failed ordinary calls since the last successful probe. */
  function FailureTimes(log: seq<Event>): seq<int> {
    if log == [] then []
    else
      var before, e := FailureTimes(log[..|log| - 1]), log[|log| - 1];
      if e.probe then if e.success then [] else before
      else if e.success then before else before + [e.time]
  }

  /** How many ordinary calls have failed in a row; failed probes do not count. */
  function FailingStreak(log: seq<Event>): nat {
    if log == [] then 0
    else
      var before, e := FailingStreak(log[..|log| - 1]), log[|log| - 1];
      if e.success then 0 else if e.probe then before else before + 1
  }

  /** The failure times within the window of the latest one. */
  function Window(times: seq<int>): seq<int> {
    if times == [] then [] else Kept(times, times[|times| - 1] - FAILURE_WINDOW)
  }

  /** Until when the log keeps the circuit open, unless a probe succeeded since. */
  function OpenedUntil(log: seq<Event>): Option<int> {
    if log == [] then None
    else
      var before, e := OpenedUntil(log[..|log| - 1]), log[|log| - 1];
      if e.success then if e.probe then None else before
      else if e.probe || FailingStreak(log) >= 3 || |Window(FailureTimes(log))| >= 5 then
        Some(e.time + CIRCUIT_OPEN_DURATION)
      else before
  }

  lemma {:induction false} KeptTwice(fs: seq<int>, c1: int, c2: int)
    requires c1 <= c2
    ensures Kept(Kept(fs, c1), c2) == Kept(fs, c2)
  {
    if fs != [] {
      KeptTwice(fs[..|fs| - 1], c1, c2);
      var k := Kept(fs[..|fs| - 1], c1);
      var x := fs[|fs| - 1];
      assert (k + [x])[..|k|] == k && k + [] == k;
    }
  }

  lemma WindowMore(times: seq<int>, now: int)
    requires times != [] ==> times[|times| - 1] <= now
    ensures Window(times + [now]) == Kept(Window(times), now - FAILURE_WINDOW) + [now]
  {
    assert (times + [now])[..|times|] == times;
    if times != [] { KeptTwice(times, times[|times| - 1] - FAILURE_WINDOW, now - FAILURE_WINDOW); }
  }

  /** In every run, late calls included, all of the breaker but its probe flag is a reading of its log. */
  lemma {:induction false} RefinesHistory(actions: seq<Action>)
    requires Run(actions).Some?
    ensures Summarizes(Run(actions).value.circuit, Run(actions).value.log, Run(actions).value.clock)
  {
    if actions != [] {
      RefinesHistory(actions[..|actions| - 1]);
      var s, a := Run(actions[..|actions| - 1]).value, actions[|actions| - 1];
      if a.Finish? {
        FinishRefines(s.circuit, s.log, Event(a.time, s.calls[a.id].probe, a.success));
      }
      hide Finished, Window, FailureTimes, FailingStreak, OpenedUntil, InTime;
    }
  }

  predicate Summarizes(c: Circuit, log: seq<Event>, clock: int) {
    var times := FailureTimes(log);
    && c.failures == Window(times)
    && c.streak == FailingStreak(log)
    && c.openUntil == OpenedUntil(log)
    && (times != [] ==> times[|times| - 1] <= clock)
  }

  lemma FinishRefines(c: Circuit, log: seq<Event>, e: Event)
    requires Summarizes(c, log, e.time)
    ensures Summarizes(Finished(c, e.time, e.probe, e.success), log + [e], e.time)
  {
    hide Kept;
    assert (log + [e])[..|log|] == log;
    WindowMore(FailureTimes(log), e.time);
  }

  /** How often x is in a sequence. */
  function Times(fs: seq<int>, x: int): nat {
    if fs == [] then 0 else Times(fs[..|fs| - 1], x) + if fs[|fs| - 1] == x then 1 else 0
  }

  predicate Rising(fs: seq<int>) { forall i, k | 0 <= i < k < |fs| :: fs[i] <= fs[k] }

  /** What is kept is every failure from the cutoff on, and in order. */
  lemma {:induction false} KeptExact(fs: seq<int>, cutoff: int, x: int)
    ensures Times(Kept(fs, cutoff), x) == if x >= cutoff then Times(fs, x) else 0
    ensures Rising(fs) ==> Rising(Kept(fs, cutoff))
    ensures forall i | 0 <= i < |Kept(fs, cutoff)| :: Kept(fs, cutoff)[i] in fs
  {
    if fs != [] {
      var front, last := fs[..|fs| - 1], fs[|fs| - 1];
      KeptExact(front, cutoff, x);
      var k := Kept(front, cutoff);
      assert (k + [last])[..|k|] == k && k + [] == k;
      assert Rising(fs) ==> forall i | 0 <= i < |k| :: k[i] in front && k[i] <= last;
    }
  }

  /**
   Who is let in, by the history: everybody while the circuit is not open; once its time is over one
   caller, as a probe, as long as no other probe is out; and nobody before.
   */
  lemma BeginExact(actions: seq<Action>, id: nat, time: int)
    requires Run(actions).Some? && CanHappen(Run(actions).value, Begin(id, time))
    ensures var s, s' := Run(actions).value, Act(Run(actions).value, Begin(id, time));
            match OpenedUntil(s.log)
            case None => id in s'.calls && !s'.calls[id].probe && s'.circuit == s.circuit
            case Some(until) =>
              if time >= until && !s.circuit.probing
              then id in s'.calls && s'.calls[id].probe && s'.circuit == s.circuit.(probing := true)
              else s'.calls == s.calls && s'.circuit == s.circuit
    ensures TimelyRun(actions) ==>
              var s := Run(actions).value;
              s.circuit.probing <==> exists k :: Outstanding(s, k) && s.calls[k].probe
  {
    RefinesHistory(actions);
    if TimelyRun(actions) { HalfOpenExclusive(actions); }
    hide Run, Window, FailureTimes, FailingStreak, OpenedUntil, TimelyRun;
  }

  /* ---------- the timing assumption is needed ---------- */

  lemma RunMore(actions: seq<Action>, s: System, a: Action)
    requires Run(actions) == Some(s) && CanHappen(s, a)
    ensures Run(actions + [a]) == Some(Act(s, a))
  {
    assert (actions + [a])[..|actions|] == actions;
  }

  /** Call id begins, runs and fails at time 0, next to a waiting call 0. */
  lemma OneFailure(actions: seq<Action>, s: System, id: nat) returns (more: seq<Action>)
    requires Run(actions) == Some(s) && s.calls == map[0 := Call(false, 0, Waiting)] && s.clock == 0 && id != 0
    requires s.circuit.openUntil.None?
    ensures Run(more)
            == Some(System(Finished(s.circuit, 0, false, false), s.calls, 0, s.log + [Event(0, false, false)]))
  {
    hide Finished;
    var s1 := Act(s, Begin(id, 0));
    RunMore(actions, s, Begin(id, 0));
    RunMore(actions + [Begin(id, 0)], s1, Acquire(id));
    var a2 := actions + [Begin(id, 0)] + [Acquire(id)];
    var s2 := Act(s1, Acquire(id));
    RunMore(a2, s2, Finish(id, 0, false));
    var s3 := Act(s2, Finish(id, 0, false));
    RunMore(a2 + [Finish(id, 0, false)], s3, Release(id));
    more := a2 + [Finish(id, 0, false)] + [Release(id)];
    assert s3.calls - {id} == s.calls;
  }

  /** Three failures at time 0. */
  lemma ThreeFailures()
    ensures Finished(Circuit(0, [], None, false), 0, false, false) == Circuit(1, [0], None, false)
    ensures Finished(Circuit(1, [0], None, false), 0, false, false) == Circuit(2, [0, 0], None, false)
    ensures Finished(Circuit(2, [0, 0], None, false), 0, false, false)
            == Circuit(3, [0, 0, 0], Some(CIRCUIT_OPEN_DURATION), false)
  {
    var none, one, two: seq<int> := [], [0], [0, 0];
    assert Kept(none, -FAILURE_WINDOW) == none;
    assert one[..0] == none && two[..1] == one;
    assert Kept(one, -FAILURE_WINDOW) == one;
    assert Kept(two, -FAILURE_WINDOW) == two;
    hide Kept;
  }

  lemma FirstWaits()
    ensures Run([Begin(0, 0)]) == Some(System(Circuit(0, [], None, false), map[0 := Call(false, 0, Waiting)], 0, []))
  {
    RunMore([], FRESH, Begin(0, 0));
    assert [] + [Begin(0, 0)] == [Begin(0, 0)];
  }

  /** Three failures open the circuit while call 0 still waits. */
  lemma OpenWithLateCall() returns (actions: seq<Action>)
    ensures Run(actions).Some?
    ensures var s := Run(actions).value;
            && s.calls == map[0 := Call(false, 0, Waiting)] && s.clock == 0
            && s.circuit.openUntil == Some(FAILURE_WINDOW) && !s.circuit.probing && s.circuit.streak == 3
  {
    hide Kept, Run, Finished;
    ThreeFailures();
    FirstWaits();
    var s0 := System(Circuit(0, [], None, false), map[0 := Call(false, 0, Waiting)], 0, []);
    var a1 := OneFailure([Begin(0, 0)], s0, 1);
    var a2 := OneFailure(a1, Run(a1).value, 2);
    actions := OneFailure(a2, Run(a2).value, 3);
  }

  /** The flag is down although a probe is out. */
  ghost predicate ProbeUnseen(s: System, id: nat) {
    Outstanding(s, id) && s.calls[id].probe && !s.circuit.probing
  }

  /** Call 0 begins before the circuit opens, and fails 60 s later, next to probe 9, which it leaves unseen. */
  lemma ClearedRun() returns (before: seq<Action>, late: Action)
    ensures Run(before).Some? && Run(before + [late]).Some?
    ensures var s := Run(before).value;
            && s.circuit.probing && Outstanding(s, 9) && s.calls[9].probe
            && late == Finish(0, FAILURE_WINDOW, false) && Outstanding(s, 0) && !s.calls[0].probe
    ensures var s := Run(before + [late]).value;
            ProbeUnseen(s, 9) && s.clock == FAILURE_WINDOW && 10 !in s.calls
            && s.circuit.openUntil == Some(FAILURE_WINDOW + CIRCUIT_OPEN_DURATION)
  {
    var a3 := OpenWithLateCall();
    var s3 := Run(a3).value;
    hide Kept, Run;
    RunMore(a3, s3, Acquire(0));
    var s4 := Act(s3, Acquire(0));
    RunMore(a3 + [Acquire(0)], s4, Begin(9, FAILURE_WINDOW));
    var s5 := Act(s4, Begin(9, FAILURE_WINDOW));
    before, late := a3 + [Acquire(0)] + [Begin(9, FAILURE_WINDOW)], Finish(0, FAILURE_WINDOW, false);
    assert s5.calls == map[0 := Call(false, 0, Running), 9 := Call(true, FAILURE_WINDOW, Waiting)];
    RunMore(before, s5, late);
  }

  /** A late failure of an ordinary call clears the flag of a probe that is still out. */
  lemma LateFinishClearsFlag()
    ensures exists before: seq<Action>, late: Action, id: nat ::
              && Run(before).Some? && Run(before).value.circuit.probing
              && late.Finish? && Run(before + [late]).Some? && id != late.id
              && ProbeUnseen(Run(before + [late]).value, id)
  {
    var before, late := ClearedRun();
    hide *;
    assert 9 != late.id;
  }

  /** So a second probe is let in next to the first. */
  lemma TwoProbesOut()
    ensures exists actions: seq<Action>, id: nat, k: nat ::
              && Run(actions).Some? && id != k
              && Outstanding(Run(actions).value, id) && Run(actions).value.calls[id].probe
              && Outstanding(Run(actions).value, k) && Run(actions).value.calls[k].probe
  {
    var before, late := ClearedRun();
    var a, time := before + [late], FAILURE_WINDOW + CIRCUIT_OPEN_DURATION;
    var s := Run(a).value;
    hide Run;
    RunMore(a, s, Begin(10, time));
    var t := Act(s, Begin(10, time));
    assert Outstanding(t, 9) && t.calls[9].probe && Outstanding(t, 10) && t.calls[10].probe;
    assert Run(a + [Begin(10, time)]) == Some(t);
  }
}
